/**
 * The template generator: the registry of runtime-call stubs (created lazily,
 * keyed by runtime entry point), the one-time build of the template catalog, and the
 * per-site selection of a template variant and its arguments.
 */
module XirGenerator {
  import opened Wrappers
  import opened Kinds
  import opened ObjectModel
  import opened RuntimeStubs
  import opened Templates
  import opened JavaStrings
  import Dispatch
  import TypeChecks

  // ----- the stub registry -----

  /**
   * The registry: the stubs by runtime entry point, and the list of stubs in
   * creation order. The list admits null entries, which the generator adds
   * when no entry point has the requested name; every call the templates
   * request names an existing entry point, so none is added here.
   */
  datatype Registry = Registry(runtimeCallStubs: map<RuntimeEntry, Stub>, stubs: seq<Option<Stub>>)

  /**
   * Every bound entry point is bound to the stub compiled for it; every
   * listed stub is the one bound for its entry point; no entry point is listed
   * twice; and a non-empty map has a non-empty list.
   */
  predicate RegistryValid(reg: Registry, w: Kind)
  {
    && (forall e :: e in reg.runtimeCallStubs ==> reg.runtimeCallStubs[e] == StubFor(e, RuntimeSignature(e, w)))
    && (forall i :: 0 <= i < |reg.stubs| && reg.stubs[i].Some? ==>
          reg.stubs[i].value.entry in reg.runtimeCallStubs && reg.runtimeCallStubs[reg.stubs[i].value.entry] == reg.stubs[i].value)
    && (forall i, j :: 0 <= i < j < |reg.stubs| && reg.stubs[i].Some? && reg.stubs[j].Some? ==>
          reg.stubs[i].value.entry != reg.stubs[j].value.entry)
    && (|reg.runtimeCallStubs| > 0 ==> |reg.stubs| > 0)
  }

  /** `reg'` keeps every binding of `reg` and extends its list. */
  predicate Extends(reg: Registry, reg': Registry)
  {
    && (forall e :: e in reg.runtimeCallStubs ==> e in reg'.runtimeCallStubs && reg'.runtimeCallStubs[e] == reg.runtimeCallStubs[e])
    && reg.stubs <= reg'.stubs
  }

  /**
   * Calling the runtime through a stub. A bound entry point yields its stub
   * and changes nothing. Otherwise the call is checked against the entry
   * point's signature: a kind mismatch is an error before anything is
   * recorded; otherwise a new stub is bound and listed.
   */
  function CallThroughStub(reg: Registry, c: Call, w: Kind): (r: (Result<Stub, BuildError>, Registry))
    ensures c.entry in reg.runtimeCallStubs ==> r == (Success(reg.runtimeCallStubs[c.entry]), reg)
    ensures c.entry !in reg.runtimeCallStubs ==>
      var sig := RuntimeSignature(c.entry, w);
      && (r.0.Success? <==> Matches(sig, c))
      && (r.0.Failure? ==> r.1 == reg && r.0.error == CheckCall(sig, c).value)
      && (r.0.Success? ==>
            && r.0.value == StubFor(c.entry, sig)
            && r.1 == Registry(reg.runtimeCallStubs[c.entry := r.0.value], reg.stubs + [Some(r.0.value)]))
  {
    if c.entry in reg.runtimeCallStubs then (Success(reg.runtimeCallStubs[c.entry]), reg)
    else
      var sig := RuntimeSignature(c.entry, w);
      match CheckCall(sig, c)
      case Some(err) => (Failure(err), reg)
      case None =>
        var stub := StubFor(c.entry, sig);
        (Success(stub), Registry(reg.runtimeCallStubs[c.entry := stub], reg.stubs + [Some(stub)]))
  }

  /**
   * A call through a stub keeps the registry valid, never rebinds an entry
   * point, and on success leaves the call's entry point bound to the stub it
   * returns.
   */
  lemma CallThroughStubKeepsRegistryValid(reg: Registry, c: Call, w: Kind)
    requires RegistryValid(reg, w)
    ensures var (r, reg') := CallThroughStub(reg, c, w);
      && RegistryValid(reg', w)
      && Extends(reg, reg')
      && (r.Success? ==> c.entry in reg'.runtimeCallStubs && reg'.runtimeCallStubs[c.entry] == r.value)
  {
    var (r, reg') := CallThroughStub(reg, c, w);
    if c.entry !in reg.runtimeCallStubs && r.Success? {
      forall i, j | 0 <= i < j < |reg'.stubs| && reg'.stubs[i].Some? && reg'.stubs[j].Some?
        ensures reg'.stubs[i].value.entry != reg'.stubs[j].value.entry
      {
        if j == |reg.stubs| {
          assert reg'.stubs[i] == reg.stubs[i];
        }
      }
    }
  }

  /** A call that agrees with its entry point's signature, or whose stub already exists, succeeds. */
  lemma CallThroughStubSucceeds(reg: Registry, c: Call, w: Kind)
    requires CallMatches(c, w) || c.entry in reg.runtimeCallStubs
    ensures CallThroughStub(reg, c, w).0.Success?
  {
  }

  /** One registration step: the registry stays valid, grows, and binds the call's entry point. */
  lemma RegistrationStep(reg: Registry, c: Call, w: Kind, r: Result<Stub, BuildError>, reg': Registry)
    requires RegistryValid(reg, w)
    requires CallMatches(c, w) || c.entry in reg.runtimeCallStubs
    requires (r, reg') == CallThroughStub(reg, c, w)
    ensures RegistryValid(reg', w) && Extends(reg, reg')
    ensures c.entry in reg'.runtimeCallStubs && |reg'.stubs| > 0
  {
    CallThroughStubKeepsRegistryValid(reg, c, w);
    CallThroughStubSucceeds(reg, c, w);
  }

  /** Every call of `calls` either agrees with its entry point's signature or has a stub already. */
  predicate Registrable(calls: seq<Call>, reg: Registry, w: Kind)
  {
    forall i :: 0 <= i < |calls| ==> CallMatches(calls[i], w) || calls[i].entry in reg.runtimeCallStubs
  }

  /** Every call of `calls` has a stub. */
  predicate AllBound(calls: seq<Call>, reg: Registry)
  {
    forall i :: 0 <= i < |calls| ==> calls[i].entry in reg.runtimeCallStubs
  }

  lemma MatchingCallsAreRegistrable(calls: seq<Call>, reg: Registry, w: Kind)
    requires CallsMatch(calls, w)
    ensures Registrable(calls, reg, w)
  {
  }

  lemma ExtendsKeepsRegistrable(calls: seq<Call>, reg: Registry, reg': Registry, w: Kind)
    requires Registrable(calls, reg, w) && Extends(reg, reg')
    ensures Registrable(calls, reg', w)
  {
  }

  lemma ExtendsKeepsBound(calls: seq<Call>, reg: Registry, reg': Registry)
    requires AllBound(calls, reg) && Extends(reg, reg')
    ensures AllBound(calls, reg')
  {
  }

  lemma BoundAppend(calls: seq<Call>, i: nat, reg: Registry)
    requires i < |calls| && AllBound(calls[..i], reg) && calls[i].entry in reg.runtimeCallStubs
    ensures AllBound(calls[..i + 1], reg)
  {
    assert forall j :: 0 <= j < i + 1 ==> calls[..i + 1][j] == calls[j];
  }

  lemma ExtendsTransitive(a: Registry, b: Registry, c: Registry)
    requires Extends(a, b) && Extends(b, c)
    ensures Extends(a, c)
  {
  }

  // ----- the catalog -----

  /** The kinds with field, array and allocation templates. */
  predicate HasKindTemplates(k: Kind)
  {
    k != Illegal && k != Jsr && k != Void
  }

  /** The templates built for one kind (the per-kind arrays of the generator, at that kind's index). */
  datatype KindTemplates = KindTemplates(
    putField: Pair,
    getField: Pair,
    putStaticField: Pair,
    getStaticField: Pair,
    arrayLoad: Template,
    arrayLoadNoBoundsCheck: Template,
    arrayStore: Template,
    arrayStoreNoBoundsCheck: Template,
    newArray: Pair,
    tlabNewArray: Pair)

  function KindTemplatesFor(kind: Kind, cfg: Config): KindTemplates
  {
    KindTemplates(
      BuildPutFieldTemplates(kind, kind == Object, false),
      BuildGetFieldTemplates(kind, false),
      BuildPutFieldTemplates(kind, kind == Object, true),
      BuildGetFieldTemplates(kind, true),
      BuildArrayLoad(kind, true),
      BuildArrayLoad(kind, false),
      BuildArrayStore(kind, true, kind == Object, kind == Object),
      BuildArrayStore(kind, false, kind == Object, kind == Object),
      BuildNewArray(kind),
      BuildTLABNewArray(kind, cfg))
  }

  datatype Catalog = Catalog(
    epilogue: Template,
    arrayStoreNoBoundsOrStoreCheck: Template,
    arrayStoreNoStoreCheck: Template,
    arrayHubs: map<Kind, Addr>,
    perKind: map<Kind, KindTemplates>,
    invokeVirtual: Pair,
    invokeInterface: Pair,
    invokeSpecial: SpecialTemplates,
    invokeStatic: Pair,
    invokeHandle: Template,
    linkToVirtual: Template,
    linkToInterface: Template,
    linkToSpecial: Template,
    linkToStatic: Template,
    multiNewArray: seq<Option<Pair>>,
    resolveClass: map<Representation, Template>,
    safepoint: Template,
    arraylength: Template,
    monitorEnter: Template,
    monitorExit: Template,
    newInstance: NewInstanceTemplates,
    tlabNewInstance: NewInstanceTemplates,
    checkcastForLeaf: Pair,
    checkcastForNonLeaf: Pair,
    instanceofForLeaf: Pair,
    instanceofForNonLeaf: Pair,
    materializedInstanceofForLeaf: Pair,
    materializedInstanceofForLeafAndNonNull: Pair,
    materializedInstanceofForNonLeaf: Pair,
    typeAssert: Template,
    exceptionObject: Template)

  /** The multi-dimensional allocation templates by rank; index 0 is unused. */
  function MultiNewArrayTable(): (t: seq<Option<Pair>>)
    ensures |t| == MAX_MULTIANEWARRAY_RANK + 1 && t[0].None?
    ensures forall rank :: 1 <= rank < |t| ==> t[rank] == Some(BuildNewMultiArray(rank))
  {
    seq(MAX_MULTIANEWARRAY_RANK + 1, rank => if rank <= 0 then None else Some(BuildNewMultiArray(rank)))
  }

  /** `perKind` holds the templates of exactly the kinds among the first `n` that have them. */
  ghost predicate PerKindUpTo(perKind: map<Kind, KindTemplates>, n: nat, cfg: Config)
    requires n <= |AllKinds|
  {
    forall k :: (k in perKind <==> k in AllKinds[..n] && HasKindTemplates(k))
             && (k in perKind ==> perKind[k] == KindTemplatesFor(k, cfg))
  }

  lemma PerKindStep(perKind: map<Kind, KindTemplates>, i: nat, cfg: Config, kt: KindTemplates)
    requires i < |AllKinds| && PerKindUpTo(perKind, i, cfg)
    requires HasKindTemplates(AllKinds[i]) && kt == KindTemplatesFor(AllKinds[i], cfg)
    ensures PerKindUpTo(perKind[AllKinds[i] := kt], i + 1, cfg)
  {
    assert AllKinds[..i + 1] == AllKinds[..i] + [AllKinds[i]];
  }

  lemma PerKindSkip(perKind: map<Kind, KindTemplates>, i: nat, cfg: Config)
    requires i < |AllKinds| && PerKindUpTo(perKind, i, cfg) && !HasKindTemplates(AllKinds[i])
    ensures PerKindUpTo(perKind, i + 1, cfg)
  {
    assert AllKinds[..i + 1] == AllKinds[..i] + [AllKinds[i]];
  }

  lemma PerKindComplete(perKind: map<Kind, KindTemplates>, cfg: Config)
    requires PerKindUpTo(perKind, |AllKinds|, cfg)
    ensures perKind == map k | k in AllKinds && HasKindTemplates(k) :: KindTemplatesFor(k, cfg)
  {
    assert AllKinds[..|AllKinds|] == AllKinds;
  }

  /** The catalog as one build produces it. */
  function ExpectedCatalog(cfg: Config, arrayHubs: map<Kind, Addr>): Catalog
  {
    Catalog(
      BuildEpilogue(),
      BuildArrayStore(Object, false, false, true),
      BuildArrayStore(Object, true, false, true),
      arrayHubs,
      map k | k in AllKinds && HasKindTemplates(k) :: KindTemplatesFor(k, cfg),
      BuildInvokeVirtual(),
      BuildInvokeInterface(),
      BuildInvokeSpecial(cfg),
      BuildInvokeStatic(cfg),
      BuildInvokeHandle(cfg),
      BuildLinkToVirtual(cfg),
      BuildLinkToInterface(cfg),
      BuildLinkToSpecial(cfg),
      BuildLinkToStatic(cfg),
      MultiNewArrayTable(),
      map r | r in AllRepresentations :: BuildResolveClass(r),
      BuildSafepoint(),
      BuildArrayLength(),
      BuildMonitorEnter(),
      BuildMonitorExit(),
      BuildNewInstance(),
      BuildTLABNewInstance(cfg),
      BuildCheckcastForLeaf(false),
      BuildCheckcastForNonLeaf(false),
      BuildInstanceofForLeaf(false),
      BuildInstanceofForNonLeaf(false),
      BuildMaterializeInstanceOf(false, true),
      BuildMaterializeInstanceOf(true, true),
      BuildMaterializeInstanceOf(false, false),
      BuildTypeAssert(),
      BuildExceptionObject())
  }

  lemma KindListed(k: Kind)
    ensures k in AllKinds
  {
    match k
    case Boolean => assert AllKinds[0] == k;
    case Byte => assert AllKinds[1] == k;
    case Short => assert AllKinds[2] == k;
    case Char => assert AllKinds[3] == k;
    case Int => assert AllKinds[4] == k;
    case Float => assert AllKinds[5] == k;
    case Long => assert AllKinds[6] == k;
    case Double => assert AllKinds[7] == k;
    case Object => assert AllKinds[8] == k;
    case Void => assert AllKinds[9] == k;
    case Jsr => assert AllKinds[10] == k;
    case Illegal => assert AllKinds[11] == k;
  }

  /**
   * The shape of a built catalog: templates for exactly the kinds that have
   * them, one class-resolution template per representation, a rank table
   * with a slot for every rank up to MAX_MULTIANEWARRAY_RANK, the array hubs
   * the build recorded, unchecked Object stores that call nothing, and the
   * materialising pairs with the flags of their names.
   */
  lemma ExpectedCatalogShape(cfg: Config, arrayHubs: map<Kind, Addr>)
    ensures var c := ExpectedCatalog(cfg, arrayHubs);
      && c.arrayHubs == arrayHubs
      && (forall k :: k in c.perKind <==> HasKindTemplates(k))
      && (forall r :: r in c.resolveClass && c.resolveClass[r].op == ResolveClass(r))
      && |c.multiNewArray| == MAX_MULTIANEWARRAY_RANK + 1
      && c.arrayStoreNoBoundsOrStoreCheck.calls == [] && c.arrayStoreNoStoreCheck.calls == [ThrowIndexOutOfBounds]
      && c.materializedInstanceofForLeaf.resolved.op == MaterializeInstanceOf(false, true)
      && c.materializedInstanceofForLeafAndNonNull.resolved.op == MaterializeInstanceOf(true, true)
      && c.materializedInstanceofForNonLeaf.resolved.op == MaterializeInstanceOf(false, false)
  {
    forall k: Kind ensures k in AllKinds { KindListed(k); }
    forall r: Representation ensures r in AllRepresentations { RepresentationListed(r); }
  }

  lemma CallsMatchAppend(a: seq<Call>, b: seq<Call>, w: Kind)
    requires CallsMatch(a, w) && CallsMatch(b, w)
    ensures CallsMatch(a + b, w)
  {
  }

  // ----- per-site selection -----

  lemma RepresentationListed(representation: Representation)
    ensures representation in AllRepresentations
  {
    match representation
    case JavaClass => assert AllRepresentations[0] == representation;
    case ObjectHub => assert AllRepresentations[1] == representation;
    case StaticFields => assert AllRepresentations[2] == representation;
    case TypeInfo => assert AllRepresentations[3] == representation;
  }

  /** An argument of a template instance. */
  datatype Arg =
    | Operand(name: string)
    | IntConst(value: int)
    | HubConst(hub: Addr)
    | GuardFor(typeName: string)
    | ResolvedGuard(hub: Addr)
    | ComponentGuardFor(typeName: string)
    | WordZero

  /** A template together with the arguments of one site. */
  datatype Snippet = Snippet(template: Template, args: seq<Arg>)

  /** A type a site refers to, resolved or not. */
  datatype RiType =
    | UnresolvedType(name: string)
    | ResolvedType(name: string, id: int, hub: Addr, isFinal: bool, isArrayClass: bool,
                   isInitialized: bool, isHybrid: bool, tupleSize: int)

  /** A method a site refers to; a resolved method carries its vtable and interface indices. */
  datatype RiMethod =
    | UnresolvedMethod(name: string)
    | ResolvedMethod(name: string, vTableIndex: nat, holderId: int, iIndexInInterface: int)

  datatype RiField =
    | UnresolvedField(name: string, kind: Kind)
    | ResolvedField(name: string, kind: Kind, offset: int)

  datatype GenError = TemplateIndexOutOfBounds(index: int) | NullTemplate | Unimplemented | StringIndexOutOfBounds

  /** A resolved type that is final and not an array has no proper subclasses: the leaf tests apply. */
  predicate IsLeafType(t: RiType)
  {
    t.ResolvedType? && t.isFinal && !t.isArrayClass
  }

  /** The resolution guard of a type: a resolved type gets a guard already holding its class. */
  function TypeGuard(t: RiType): (a: Arg)
    ensures a.ResolvedGuard? <==> t.ResolvedType?
  {
    if t.ResolvedType? then ResolvedGuard(t.hub) else GuardFor(t.name)
  }

  /**
   * Whether a method's full name (name followed by its parenthesised
   * signature) names the given allocation-profiler entry or exit point. A
   * name without '(' makes the substring fail.
   */
  function MethodIsAllocationProfilerEntryOrExitPoint(methodFullName: string, entryOrExitPoint: string): (r: Result<bool, GenError>)
    ensures r.Failure? <==> '(' !in methodFullName
    ensures r.Failure? ==> r.error == StringIndexOutOfBounds
    ensures r.Success? ==>
      (r.value <==> && '(' !in entryOrExitPoint
                    && |entryOrExitPoint| < |methodFullName|
                    && methodFullName[..|entryOrExitPoint|] == entryOrExitPoint
                    && methodFullName[|entryOrExitPoint|] == '(')
  {
    var i := IndexOf(methodFullName, '(');
    if i < 0 then Failure(StringIndexOutOfBounds)
    else
      Success(methodFullName[..i] == entryOrExitPoint)
  }

  /** The generator: its configuration, its stub registry and, once built, its catalog. */
  class MaxXirGenerator {
    const cfg: Config
    const layout: Layout
    /** The array hubs of the boot class registry, by element kind. */
    const registryArrayHubs: map<Kind, Addr>
    var runtimeCallStubs: map<RuntimeEntry, Stub>
    var stubs: seq<Option<Stub>>
    var catalog: Option<Catalog>

    constructor (cfg: Config, layout: Layout, registryArrayHubs: map<Kind, Addr>)
      ensures this.cfg == cfg && this.layout == layout && this.registryArrayHubs == registryArrayHubs
      ensures runtimeCallStubs == map[] && stubs == [] && catalog == None
      ensures Valid()
    {
      this.cfg := cfg;
      this.layout := layout;
      this.registryArrayHubs := registryArrayHubs;
      runtimeCallStubs := map[];
      stubs := [];
      catalog := None;
    }

    function W(): Kind
    {
      ArchKind(cfg.arch)
    }

    function Reg(): Registry
      reads this
    {
      Registry(runtimeCallStubs, stubs)
    }

    /** The catalog has been built. */
    predicate Built()
      reads this
    {
      catalog == Some(ExpectedCatalog(cfg, registryArrayHubs))
    }

    /** A valid registry; a catalog, if any, is the built one; and a non-empty stub list means the catalog exists. */
    predicate Valid()
      reads this
    {
      && RegistryValid(Reg(), W())
      && (catalog.Some? ==> Built())
      && (|stubs| > 0 ==> catalog.Some?)
    }

    /** `callRuntimeThroughStub`: look the entry point up; on a miss, create the stub. */
    method CallRuntimeThroughStub(c: Call) returns (r: Result<Stub, BuildError>)
      modifies this
      ensures (r, Reg()) == CallThroughStub(old(Reg()), c, W())
      ensures catalog == old(catalog)
    {
      if c.entry in runtimeCallStubs {
        return Success(runtimeCallStubs[c.entry]);
      }
      r := AddCallRuntimeThroughStub(c);
    }

    /**
     * `addCallRuntimeThroughStub`: check the call's kinds against the entry
     * point's signature, then bind and list the new stub.
     */
    method AddCallRuntimeThroughStub(c: Call) returns (r: Result<Stub, BuildError>)
      requires c.entry !in runtimeCallStubs
      modifies this
      ensures (r, Reg()) == CallThroughStub(old(Reg()), c, W())
      ensures catalog == old(catalog)
    {
      var sig := RuntimeSignature(c.entry, W());
      var err := CheckCall(sig, c);
      if err.Some? {
        return Failure(err.value);
      }
      var stub := StubFor(c.entry, sig);
      runtimeCallStubs := runtimeCallStubs[c.entry := stub];
      stubs := stubs + [Some(stub)];
      r := Success(stub);
    }

    /** The runtime calls a template's assembly requests, in order; none of them fails. */
    method RegisterCalls(calls: seq<Call>)
      requires RegistryValid(Reg(), W()) && Registrable(calls, Reg(), W())
      modifies this
      ensures RegistryValid(Reg(), W()) && Extends(old(Reg()), Reg()) && catalog == old(catalog)
      ensures AllBound(calls, Reg())
      ensures |calls| > 0 ==> |stubs| > 0
    {
      for i := 0 to |calls|
        invariant RegistryValid(Reg(), W()) && Extends(old(Reg()), Reg()) && catalog == old(catalog)
        invariant AllBound(calls[..i], Reg())
        invariant i > 0 ==> |stubs| > 0
        invariant Registrable(calls, Reg(), W())
      {
        ghost var before := Reg();
        var r := CallRuntimeThroughStub(calls[i]);
        RegistrationStep(before, calls[i], W(), r, Reg());
        ExtendsTransitive(old(Reg()), before, Reg());
        ExtendsKeepsRegistrable(calls, before, Reg(), W());
        ExtendsKeepsBound(calls[..i], before, Reg());
        BoundAppend(calls, i, Reg());
      }
      assert calls[..|calls|] == calls;
    }

    method RegisterPair(p: Pair)
      requires RegistryValid(Reg(), W())
      requires Registrable(p.resolved.calls, Reg(), W()) && Registrable(p.unresolved.calls, Reg(), W())
      modifies this
      ensures RegistryValid(Reg(), W()) && Extends(old(Reg()), Reg()) && catalog == old(catalog)
      ensures AllBound(p.resolved.calls, Reg()) && AllBound(p.unresolved.calls, Reg())
      ensures |p.resolved.calls| > 0 ==> |stubs| > 0
    {
      RegisterCalls(p.resolved.calls);
      ghost var mid := Reg();
      ExtendsKeepsRegistrable(p.unresolved.calls, old(Reg()), mid, W());
      RegisterCalls(p.unresolved.calls);
      ExtendsTransitive(old(Reg()), mid, Reg());
      ExtendsKeepsBound(p.resolved.calls, mid, Reg());
    }

    /** Registers the calls of a template whose calls all agree with their entry points. */
    method RegisterTemplate(t: Template)
      requires RegistryValid(Reg(), W()) && CallsMatch(t.calls, W())
      modifies this
      ensures RegistryValid(Reg(), W()) && Extends(old(Reg()), Reg()) && catalog == old(catalog)
      ensures AllBound(t.calls, Reg())
    {
      MatchingCallsAreRegistrable(t.calls, Reg(), W());
      RegisterCalls(t.calls);
    }

    method RegisterMatchingPair(p: Pair)
      requires RegistryValid(Reg(), W()) && CallsMatch(p.resolved.calls, W()) && CallsMatch(p.unresolved.calls, W())
      modifies this
      ensures RegistryValid(Reg(), W()) && Extends(old(Reg()), Reg()) && catalog == old(catalog)
      ensures AllBound(p.resolved.calls, Reg()) && AllBound(p.unresolved.calls, Reg())
    {
      MatchingCallsAreRegistrable(p.resolved.calls, Reg(), W());
      MatchingCallsAreRegistrable(p.unresolved.calls, Reg(), W());
      RegisterPair(p);
    }

    /** The templates of one kind, in the order the catalog build creates them. */
    method BuildKindTemplates(kind: Kind) returns (kt: KindTemplates)
      requires RegistryValid(Reg(), W())
      modifies this
      ensures kt == KindTemplatesFor(kind, cfg)
      ensures RegistryValid(Reg(), W()) && catalog == old(catalog)
    {
      var w := W();
      FieldCallsMatch(kind, kind == Object, false, w);
      FieldCallsMatch(kind, kind == Object, true, w);
      var putField := BuildPutFieldTemplates(kind, kind == Object, false);
      RegisterMatchingPair(putField);
      var getField := BuildGetFieldTemplates(kind, false);
      RegisterMatchingPair(getField);
      var putStatic := BuildPutFieldTemplates(kind, kind == Object, true);
      RegisterMatchingPair(putStatic);
      var getStatic := BuildGetFieldTemplates(kind, true);
      RegisterMatchingPair(getStatic);
      kt := BuildKindArrayTemplates(kind, putField, getField, putStatic, getStatic);
    }

    /** The array templates of one kind, completing its field templates. */
    method BuildKindArrayTemplates(kind: Kind, putField: Pair, getField: Pair, putStatic: Pair, getStatic: Pair)
      returns (kt: KindTemplates)
      requires RegistryValid(Reg(), W())
      modifies this
      ensures kt == KindTemplates(putField, getField, putStatic, getStatic,
        BuildArrayLoad(kind, true), BuildArrayLoad(kind, false),
        BuildArrayStore(kind, true, kind == Object, kind == Object),
        BuildArrayStore(kind, false, kind == Object, kind == Object),
        BuildNewArray(kind), BuildTLABNewArray(kind, cfg))
      ensures RegistryValid(Reg(), W()) && catalog == old(catalog)
    {
      var w := W();
      ArrayAccessCallsMatch(kind, true, kind == Object, kind == Object, w);
      ArrayAccessCallsMatch(kind, false, kind == Object, kind == Object, w);
      NewArrayCallsMatch(kind, w);
      TlabNewArrayCallsMatch(kind, cfg);
      var load := BuildArrayLoad(kind, true);
      RegisterTemplate(load);
      var loadNoBoundsCheck := BuildArrayLoad(kind, false);
      RegisterTemplate(loadNoBoundsCheck);
      var store := BuildArrayStore(kind, true, kind == Object, kind == Object);
      RegisterTemplate(store);
      var storeNoBoundsCheck := BuildArrayStore(kind, false, kind == Object, kind == Object);
      RegisterTemplate(storeNoBoundsCheck);
      var newArray := BuildNewArray(kind);
      RegisterMatchingPair(newArray);
      var tlabNewArray := BuildTLABNewArray(kind, cfg);
      RegisterMatchingPair(tlabNewArray);
      kt := KindTemplates(putField, getField, putStatic, getStatic, load, loadNoBoundsCheck,
                          store, storeNoBoundsCheck, newArray, tlabNewArray);
    }

    /** The per-kind templates, for every kind in declaration order except Illegal, Jsr and Void. */
    method BuildPerKindTemplates() returns (perKind: map<Kind, KindTemplates>)
      requires RegistryValid(Reg(), W())
      modifies this
      ensures perKind == map k | k in AllKinds && HasKindTemplates(k) :: KindTemplatesFor(k, cfg)
      ensures RegistryValid(Reg(), W()) && catalog == old(catalog)
    {
      perKind := map[];
      for i := 0 to |AllKinds|
        invariant RegistryValid(Reg(), W()) && catalog == old(catalog)
        invariant PerKindUpTo(perKind, i, cfg)
      {
        var kind := AllKinds[i];
        if kind != Illegal && kind != Jsr && kind != Void {
          var kt := BuildKindTemplates(kind);
          PerKindStep(perKind, i, cfg, kt);
          perKind := perKind[kind := kt];
        } else {
          PerKindSkip(perKind, i, cfg);
        }
      }
      PerKindComplete(perKind, cfg);
    }

    /** The multi-dimensional allocation templates for ranks 1 to MAX_MULTIANEWARRAY_RANK. */
    method BuildMultiNewArrayTable() returns (table: seq<Option<Pair>>)
      requires RegistryValid(Reg(), W())
      modifies this
      ensures table == MultiNewArrayTable()
      ensures RegistryValid(Reg(), W()) && catalog == old(catalog)
    {
      table := seq(MAX_MULTIANEWARRAY_RANK + 1, _ => None);
      for i := 1 to MAX_MULTIANEWARRAY_RANK + 1
        invariant RegistryValid(Reg(), W()) && catalog == old(catalog)
        invariant |table| == MAX_MULTIANEWARRAY_RANK + 1 && table[0].None?
        invariant forall rank :: 1 <= rank < i ==> table[rank] == Some(BuildNewMultiArray(rank))
        invariant forall rank :: i <= rank < |table| ==> table[rank].None?
      {
        NewMultiArrayCallsMatch(i, W());
        NewMultiArrayResolvedCallsMatch(i, W());
        var pair := BuildNewMultiArray(i);
        RegisterMatchingPair(pair);
        table := table[i := Some(pair)];
      }
      assert forall rank :: 0 <= rank < |table| ==> table[rank] == MultiNewArrayTable()[rank];
    }

    /** The class-resolution templates, one per representation. */
    method BuildResolveClassTable() returns (table: map<Representation, Template>)
      requires RegistryValid(Reg(), W())
      modifies this
      ensures table == map r | r in AllRepresentations :: BuildResolveClass(r)
      ensures RegistryValid(Reg(), W()) && catalog == old(catalog)
    {
      table := map[];
      for i := 0 to |AllRepresentations|
        invariant RegistryValid(Reg(), W()) && catalog == old(catalog)
        invariant forall r :: r in table <==> r in AllRepresentations[..i]
        invariant forall r :: r in table ==> table[r] == BuildResolveClass(r)
      {
        var representation := AllRepresentations[i];
        ResolveClassCallsMatch(representation, W());
        var t := BuildResolveClass(representation);
        RegisterTemplate(t);
        table := table[representation := t];
        assert AllRepresentations[..i + 1] == AllRepresentations[..i] + [representation];
      }
      assert AllRepresentations[..|AllRepresentations|] == AllRepresentations;
    }

    /** The invocation templates: virtual, interface, special, static, then the method-handle ones. */
    method BuildInvokeTemplates()
      returns (invokeVirtual: Pair, invokeInterface: Pair, invokeSpecial: SpecialTemplates, invokeStatic: Pair,
               invokeHandle: Template, linkToVirtual: Template, linkToInterface: Template,
               linkToSpecial: Template, linkToStatic: Template)
      requires RegistryValid(Reg(), W())
      modifies this
      ensures invokeVirtual == BuildInvokeVirtual() && invokeInterface == BuildInvokeInterface()
      ensures invokeSpecial == BuildInvokeSpecial(cfg) && invokeStatic == BuildInvokeStatic(cfg)
      ensures invokeHandle == BuildInvokeHandle(cfg)
      ensures linkToVirtual == BuildLinkToVirtual(cfg) && linkToInterface == BuildLinkToInterface(cfg)
      ensures linkToSpecial == BuildLinkToSpecial(cfg) && linkToStatic == BuildLinkToStatic(cfg)
      ensures RegistryValid(Reg(), W()) && catalog == old(catalog)
    {
      VirtualCallsMatch(cfg);
      InterfaceCallsMatch(cfg);
      DirectCallsMatch(cfg);
      HandleCallsMatch(cfg);
      LinkCallsMatch(cfg);
      invokeVirtual := BuildInvokeVirtual();
      RegisterMatchingPair(invokeVirtual);
      invokeInterface := BuildInvokeInterface();
      RegisterMatchingPair(invokeInterface);
      invokeSpecial := BuildInvokeSpecial(cfg);
      RegisterTemplate(invokeSpecial.resolved);
      RegisterTemplate(invokeSpecial.resolvedNullCheckEliminated);
      RegisterTemplate(invokeSpecial.unresolved);
      invokeStatic := BuildInvokeStatic(cfg);
      RegisterMatchingPair(invokeStatic);
      invokeHandle := BuildInvokeHandle(cfg);
      RegisterTemplate(invokeHandle);
      linkToVirtual := BuildLinkToVirtual(cfg);
      RegisterTemplate(linkToVirtual);
      linkToInterface := BuildLinkToInterface(cfg);
      RegisterTemplate(linkToInterface);
      linkToSpecial := BuildLinkToSpecial(cfg);
      RegisterTemplate(linkToSpecial);
      linkToStatic := BuildLinkToStatic(cfg);
      RegisterTemplate(linkToStatic);
    }

    method RegisterNewInstanceTemplates(t: NewInstanceTemplates)
      requires RegistryValid(Reg(), W())
      requires CallsMatch(t.resolved.calls, W()) && CallsMatch(t.resolvedHybrid.calls, W()) && CallsMatch(t.unresolved.calls, W())
      modifies this
      ensures RegistryValid(Reg(), W()) && catalog == old(catalog)
    {
      RegisterTemplate(t.resolved);
      RegisterTemplate(t.resolvedHybrid);
      RegisterTemplate(t.unresolved);
    }

    /** Safepoint, array length, monitors and instance allocation. */
    method BuildMiscTemplates()
      returns (safepoint: Template, arraylength: Template, monitorEnter: Template, monitorExit: Template,
               newInstance: NewInstanceTemplates, tlabNewInstance: NewInstanceTemplates)
      requires RegistryValid(Reg(), W())
      modifies this
      ensures safepoint == BuildSafepoint() && arraylength == BuildArrayLength()
      ensures monitorEnter == BuildMonitorEnter() && monitorExit == BuildMonitorExit()
      ensures newInstance == BuildNewInstance() && tlabNewInstance == BuildTLABNewInstance(cfg)
      ensures RegistryValid(Reg(), W()) && catalog == old(catalog)
    {
      MonitorCallsMatch(W());
      NewInstanceCallsMatch(cfg);
      TlabNewInstanceCallsMatch(cfg);
      safepoint := BuildSafepoint();
      RegisterTemplate(safepoint);
      arraylength := BuildArrayLength();
      RegisterTemplate(arraylength);
      monitorEnter := BuildMonitorEnter();
      RegisterTemplate(monitorEnter);
      monitorExit := BuildMonitorExit();
      RegisterTemplate(monitorExit);
      newInstance := BuildNewInstance();
      RegisterNewInstanceTemplates(newInstance);
      tlabNewInstance := BuildTLABNewInstance(cfg);
      RegisterNewInstanceTemplates(tlabNewInstance);
    }

    /**
     * The type-check templates, then type assertion and exception object. The
     * unresolved materialising template's call does not agree with its entry
     * point; its registration succeeds only because the instanceof templates
     * have already created that stub.
     */
    method BuildTypeCheckTemplates()
      returns (checkcastForLeaf: Pair, checkcastForNonLeaf: Pair, instanceofForLeaf: Pair, instanceofForNonLeaf: Pair,
               materializedForLeaf: Pair, materializedForLeafAndNonNull: Pair, materializedForNonLeaf: Pair,
               typeAssert: Template, exceptionObject: Template)
      requires RegistryValid(Reg(), W())
      modifies this
      ensures checkcastForLeaf == BuildCheckcastForLeaf(false) && checkcastForNonLeaf == BuildCheckcastForNonLeaf(false)
      ensures instanceofForLeaf == BuildInstanceofForLeaf(false) && instanceofForNonLeaf == BuildInstanceofForNonLeaf(false)
      ensures materializedForLeaf == BuildMaterializeInstanceOf(false, true)
      ensures materializedForLeafAndNonNull == BuildMaterializeInstanceOf(true, true)
      ensures materializedForNonLeaf == BuildMaterializeInstanceOf(false, false)
      ensures typeAssert == BuildTypeAssert() && exceptionObject == BuildExceptionObject()
      ensures RegistryValid(Reg(), W()) && catalog == old(catalog)
      ensures LoadException in runtimeCallStubs
    {
      CheckcastCallsMatch(false, W());
      InstanceofCallsMatch(false, W());
      checkcastForLeaf := BuildCheckcastForLeaf(false);
      RegisterMatchingPair(checkcastForLeaf);
      checkcastForNonLeaf := BuildCheckcastForNonLeaf(false);
      RegisterMatchingPair(checkcastForNonLeaf);
      instanceofForLeaf := BuildInstanceofForLeaf(false);
      RegisterMatchingPair(instanceofForLeaf);
      instanceofForNonLeaf := BuildInstanceofForNonLeaf(false);
      RegisterMatchingPair(instanceofForNonLeaf);
      assert instanceofForNonLeaf.unresolved.calls[0].entry in runtimeCallStubs;
      materializedForLeaf, materializedForLeafAndNonNull, materializedForNonLeaf := BuildMaterializeTemplates();
      ExceptionObjectCallsMatch(W());
      typeAssert := BuildTypeAssert();
      RegisterTemplate(typeAssert);
      exceptionObject := BuildExceptionObject();
      RegisterTemplate(exceptionObject);
      assert exceptionObject.calls[0].entry in runtimeCallStubs;
    }

    /** The materialising instanceof templates; the stub of `unresolvedInstanceOf` already exists. */
    method BuildMaterializeTemplates() returns (leaf: Pair, leafAndNonNull: Pair, nonLeaf: Pair)
      requires RegistryValid(Reg(), W()) && UnresolvedInstanceOf in runtimeCallStubs
      modifies this
      ensures leaf == BuildMaterializeInstanceOf(false, true)
      ensures leafAndNonNull == BuildMaterializeInstanceOf(true, true)
      ensures nonLeaf == BuildMaterializeInstanceOf(false, false)
      ensures RegistryValid(Reg(), W()) && Extends(old(Reg()), Reg()) && catalog == old(catalog)
    {
      leaf := BuildMaterializeInstanceOf(false, true);
      RegisterPair(leaf);
      ghost var r1 := Reg();
      leafAndNonNull := BuildMaterializeInstanceOf(true, true);
      ExtendsKeepsRegistrable(leafAndNonNull.unresolved.calls, old(Reg()), r1, W());
      RegisterPair(leafAndNonNull);
      ghost var r2 := Reg();
      nonLeaf := BuildMaterializeInstanceOf(false, false);
      assert Registrable(nonLeaf.unresolved.calls, old(Reg()), W());
      ExtendsTransitive(old(Reg()), r1, r2);
      ExtendsKeepsRegistrable(nonLeaf.unresolved.calls, old(Reg()), r2, W());
      RegisterPair(nonLeaf);
      ExtendsTransitive(old(Reg()), r2, Reg());
    }

    /**
     * `makeTemplates`: a generator that already has stubs returns them
     * unchanged; otherwise every template of the catalog is built, in order,
     * creating the stubs its runtime calls need.
     */
    method MakeTemplates() returns (r: seq<Option<Stub>>)
      requires Valid()
      modifies this
      ensures Valid() && Built() && r == stubs && |r| > 0
      ensures |old(stubs)| > 0 ==> Reg() == old(Reg())
    {
      if |stubs| > 0 {
        return stubs;
      }
      var c := BuildCatalog();
      catalog := Some(c);
      r := stubs;
    }

    /** Every template of the catalog, built in order, creating the stubs their runtime calls need. */
    method BuildCatalog() returns (c: Catalog)
      requires RegistryValid(Reg(), W())
      modifies this
      ensures c == ExpectedCatalog(cfg, registryArrayHubs)
      ensures RegistryValid(Reg(), W()) && |stubs| > 0
    {
      var epilogue, noBoundsOrStoreCheck, noStoreCheck, perKind := BuildLeadingTemplates();
      var invokeVirtual, invokeInterface, invokeSpecial, invokeStatic, invokeHandle,
          linkToVirtual, linkToInterface, linkToSpecial, linkToStatic := BuildInvokeTemplates();
      var multiNewArray := BuildMultiNewArrayTable();
      var resolveClass := BuildResolveClassTable();
      var safepoint, arraylength, monitorEnter, monitorExit, newInstance, tlabNewInstance := BuildMiscTemplates();
      var checkcastForLeaf, checkcastForNonLeaf, instanceofForLeaf, instanceofForNonLeaf,
          materializedForLeaf, materializedForLeafAndNonNull, materializedForNonLeaf,
          typeAssert, exceptionObject := BuildTypeCheckTemplates();
      c := Catalog(
        epilogue, noBoundsOrStoreCheck, noStoreCheck, registryArrayHubs, perKind,
        invokeVirtual, invokeInterface, invokeSpecial, invokeStatic,
        invokeHandle, linkToVirtual, linkToInterface, linkToSpecial, linkToStatic,
        multiNewArray, resolveClass,
        safepoint, arraylength, monitorEnter, monitorExit, newInstance, tlabNewInstance,
        checkcastForLeaf, checkcastForNonLeaf, instanceofForLeaf, instanceofForNonLeaf,
        materializedForLeaf, materializedForLeafAndNonNull, materializedForNonLeaf,
        typeAssert, exceptionObject);
    }

    /** The epilogue, the two reference array stores without store check, and the per-kind templates. */
    method BuildLeadingTemplates()
      returns (epilogue: Template, noBoundsOrStoreCheck: Template, noStoreCheck: Template, perKind: map<Kind, KindTemplates>)
      requires RegistryValid(Reg(), W())
      modifies this
      ensures epilogue == BuildEpilogue()
      ensures noBoundsOrStoreCheck == BuildArrayStore(Object, false, false, true)
      ensures noStoreCheck == BuildArrayStore(Object, true, false, true)
      ensures perKind == map k | k in AllKinds && HasKindTemplates(k) :: KindTemplatesFor(k, cfg)
      ensures RegistryValid(Reg(), W()) && catalog == old(catalog)
    {
      epilogue := BuildEpilogue();
      RegisterTemplate(epilogue);
      ArrayAccessCallsMatch(Object, false, false, true, W());
      ArrayAccessCallsMatch(Object, true, false, true, W());
      noBoundsOrStoreCheck := BuildArrayStore(Object, false, false, true);
      RegisterTemplate(noBoundsOrStoreCheck);
      noStoreCheck := BuildArrayStore(Object, true, false, true);
      RegisterTemplate(noStoreCheck);
      perKind := BuildPerKindTemplates();
    }

    // ----- per-site selection -----

    function Cat(): Catalog
      reads this
      requires Built()
    {
      catalog.value
    }

    /**
     * `genEpilogue` as written: no snippet for a template method; otherwise
     * the prebuilt epilogue. On a running VM the exit-point test still runs,
     * and can throw, but the store of zero it leads to goes into the
     * generator's shared assembler, which no returned template holds.
     */
    function GenEpilogueAsWritten(isTemplate: bool, vmRunning: bool, methodFullName: string, exitPoint: string)
      : (r: Result<Option<Snippet>, GenError>)
      reads this
      requires Built()
      ensures isTemplate ==> r == Success(None)
      ensures r.Failure? <==> !isTemplate && vmRunning && '(' !in methodFullName
      ensures r.Success? && r.value.Some? ==> r.value.value == Snippet(BuildEpilogue(), [])
    {
      if isTemplate then Success(None)
      else if !vmRunning then Success(Some(Snippet(Cat().epilogue, [])))
      else match MethodIsAllocationProfilerEntryOrExitPoint(methodFullName, exitPoint)
        case Failure(e) => Failure(e)
        case Success(_) => Success(Some(Snippet(Cat().epilogue, [])))
    }

    /** As written, every method that gets an epilogue gets the same one, exit point or not. */
    lemma EpilogueAsWrittenIgnoresExitPoint(name1: string, exitPoint1: string, name2: string, exitPoint2: string, running: bool)
      requires Built()
      requires GenEpilogueAsWritten(false, running, name1, exitPoint1).Success?
      requires GenEpilogueAsWritten(false, running, name2, exitPoint2).Success?
      ensures GenEpilogueAsWritten(false, running, name1, exitPoint1) == GenEpilogueAsWritten(false, running, name2, exitPoint2)
    {
    }

    /**
     * The exit point's epilogue as written leaves the profiler flag set,
     * where the corrected one clears it.
     */
    lemma ExitPointEpilogueKeepsProfilerFlag(exitPoint: string)
      requires Built()
      requires '(' !in exitPoint
      ensures var name := exitPoint + "()";
        && MethodIsAllocationProfilerEntryOrExitPoint(name, exitPoint) == Success(true)
        && GenEpilogueAsWritten(false, true, name, exitPoint).Success?
        && ProfilerFlagAfter(GenEpilogueAsWritten(false, true, name, exitPoint).value.value.template.op, 1) == 1
        && GenEpilogue(false, true, name, exitPoint).Success?
        && ProfilerFlagAfter(GenEpilogue(false, true, name, exitPoint).value.value.template.op, 1) == 0
    {
      var name := exitPoint + "()";
      assert name[..|exitPoint|] == exitPoint;
      assert name[|exitPoint|] == '(';
    }

    /**
     * `genEpilogue` as evidently intended: no snippet for a template method;
     * otherwise the epilogue, except that on a running VM the allocation
     * profiler's exit point gets an epilogue of its own that clears the
     * profiler flag, built afresh as `genPrologue` builds the one that sets
     * it. The exit-point test can throw only on a running VM.
     */
    function GenEpilogue(isTemplate: bool, vmRunning: bool, methodFullName: string, exitPoint: string)
      : (r: Result<Option<Snippet>, GenError>)
      reads this
      requires Built()
      ensures isTemplate ==> r == Success(None)
      ensures r.Failure? <==> !isTemplate && vmRunning && '(' !in methodFullName
      ensures r.Success? && r.value.Some? ==>
        && r.value.value.args == [] && r.value.value.template.calls == []
        && r.value.value.template.op in {Epilogue, ProfilerExitEpilogue}
        && (forall flag :: ProfilerFlagAfter(r.value.value.template.op, flag)
              == if vmRunning && MethodIsAllocationProfilerEntryOrExitPoint(methodFullName, exitPoint) == Success(true) then 0 else flag)
    {
      if isTemplate then Success(None)
      else if !vmRunning then Success(Some(Snippet(Cat().epilogue, [])))
      else match MethodIsAllocationProfilerEntryOrExitPoint(methodFullName, exitPoint)
        case Failure(e) => Failure(e)
        case Success(isExit) =>
          Success(Some(Snippet(if isExit then BuildProfilerExitEpilogue() else Cat().epilogue, [])))
    }

    function GenSafepointPoll(): (r: Snippet)
      reads this
      requires Built()
      ensures r.template.op == Safepoint && r.args == []
    {
      Snippet(Cat().safepoint, [])
    }

    /** `genResolveClass`: the template for the requested representation, guarded by the type. */
    function GenResolveClass(t: RiType, representation: Representation): (r: Snippet)
      reads this
      requires Built()
      ensures r.template.op == ResolveClass(representation) && r.args == [TypeGuard(t)]
      ensures r.template.calls == [Call(Resolver(representation), Some(Object), [Object])]
    {
      RepresentationListed(representation);
      Snippet(Cat().resolveClass[representation], [TypeGuard(t)])
    }

    function GenInvokeHandle(actor: Arg): (r: Snippet)
      reads this
      requires Built()
      ensures r.template.op == Op.InvokeHandle && r.args == [actor]
    {
      Snippet(Cat().invokeHandle, [actor])
    }

    /** `genInvokeInterface`: a resolved method passes its holder's interface id and its index in the interface. */
    function GenInvokeInterface(receiver: Arg, m: RiMethod): (r: Snippet)
      reads this
      requires Built()
      ensures r.template.op == InvokeInterface(m.ResolvedMethod?)
      ensures m.ResolvedMethod? ==> r.args == [receiver, IntConst(m.holderId), IntConst(m.iIndexInInterface)]
      ensures m.UnresolvedMethod? ==> r.args == [receiver, GuardFor(m.name)]
    {
      if m.ResolvedMethod? then
        Snippet(Cat().invokeInterface.resolved, [receiver, IntConst(m.holderId), IntConst(m.iIndexInInterface)])
      else
        Snippet(Cat().invokeInterface.unresolved, [receiver, GuardFor(m.name)])
    }

    /** `genInvokeVirtual`: a resolved method passes the byte offset of its vtable entry from the hub. */
    function GenInvokeVirtual(receiver: Arg, m: RiMethod): (r: Snippet)
      reads this
      requires Built()
      ensures r.template.op == InvokeVirtual(m.ResolvedMethod?)
      ensures m.ResolvedMethod? ==> r.args == [receiver, IntConst(Dispatch.VTableOffset(layout, m.vTableIndex))]
      ensures m.UnresolvedMethod? ==> r.args == [receiver, GuardFor(m.name)]
    {
      if m.ResolvedMethod? then
        Snippet(Cat().invokeVirtual.resolved,
                [receiver, IntConst(m.vTableIndex * layout.wordSize + layout.firstElementOffset)])
      else
        Snippet(Cat().invokeVirtual.unresolved, [receiver, GuardFor(m.name)])
    }

    /** `genInvokeSpecial`: the resolved template keeps its explicit null check only when the site needs one. */
    function GenInvokeSpecial(requiresNullCheck: bool, receiver: Arg, m: RiMethod): (r: Snippet)
      reads this
      requires Built()
      ensures r.template.op == InvokeSpecial(m.ResolvedMethod?, m.ResolvedMethod? && requiresNullCheck)
      ensures m.ResolvedMethod? && requiresNullCheck ==> r.args == [WordZero, receiver]
      ensures m.ResolvedMethod? && !requiresNullCheck ==> r.args == [WordZero]
      ensures m.UnresolvedMethod? ==> r.args == [GuardFor(m.name)]
    {
      if m.ResolvedMethod? then
        if requiresNullCheck then Snippet(Cat().invokeSpecial.resolved, [WordZero, receiver])
        else Snippet(Cat().invokeSpecial.resolvedNullCheckEliminated, [WordZero])
      else Snippet(Cat().invokeSpecial.unresolved, [GuardFor(m.name)])
    }

    function GenInvokeStatic(m: RiMethod): (r: Snippet)
      reads this
      requires Built()
      ensures r.template.op == InvokeStatic(m.ResolvedMethod?)
      ensures r.args == if m.ResolvedMethod? then [WordZero] else [GuardFor(m.name)]
    {
      if m.ResolvedMethod? then Snippet(Cat().invokeStatic.resolved, [WordZero])
      else Snippet(Cat().invokeStatic.unresolved, [GuardFor(m.name)])
    }

    function GenLinkToSpecial(memberName: Arg): (r: Snippet)
      reads this
      requires Built()
      ensures r.template.op == Op.LinkToSpecial && r.args == [memberName]
    {
      Snippet(Cat().linkToSpecial, [memberName])
    }

    /** The member name comes first, then the receiver. */
    function GenLinkToInterface(receiver: Arg, memberName: Arg): (r: Snippet)
      reads this
      requires Built()
      ensures r.template.op == Op.LinkToInterface && r.args == [memberName, receiver]
    {
      Snippet(Cat().linkToInterface, [memberName, receiver])
    }

    function GenLinkToVirtual(receiver: Arg, memberName: Arg): (r: Snippet)
      reads this
      requires Built()
      ensures r.template.op == Op.LinkToVirtual && r.args == [memberName, receiver]
    {
      Snippet(Cat().linkToVirtual, [memberName, receiver])
    }

    function GenLinkToStatic(memberName: Arg): (r: Snippet)
      reads this
      requires Built()
      ensures r.template.op == Op.LinkToStatic && r.args == [memberName]
    {
      Snippet(Cat().linkToStatic, [memberName])
    }

    /** The lock address is not passed on. */
    function GenMonitorEnter(receiver: Arg, lockAddress: Arg): (r: Snippet)
      reads this
      requires Built()
      ensures r.template.op == Op.MonitorEnter && r.args == [receiver]
    {
      Snippet(Cat().monitorEnter, [receiver])
    }

    function GenMonitorExit(receiver: Arg, lockAddress: Arg): (r: Snippet)
      reads this
      requires Built()
      ensures r.template.op == Op.MonitorExit && r.args == [receiver]
    {
      Snippet(Cat().monitorExit, [receiver])
    }

    /** The built catalog holds, for every kind with templates, the templates the build creates for it. */
    lemma PerKindIsBuilt(kind: Kind)
      requires Built() && HasKindTemplates(kind)
      ensures kind in Cat().perKind && Cat().perKind[kind] == KindTemplatesFor(kind, cfg)
    {
      assert kind in AllKinds;
    }

    /** `genGetField`: the template of the field's kind; a resolved field passes its offset, an unresolved one a guard. */
    function GenGetField(receiver: Arg, field: RiField): (r: Snippet)
      reads this
      requires Built() && HasKindTemplates(field.kind)
      ensures r.template.op == GetField(field.kind, false, field.ResolvedField?)
      ensures r.args == [receiver, if field.ResolvedField? then IntConst(field.offset) else GuardFor(field.name)]
    {
      PerKindIsBuilt(field.kind);
      var pair := Cat().perKind[field.kind].getField;
      if field.ResolvedField? then Snippet(pair.resolved, [receiver, IntConst(field.offset)])
      else Snippet(pair.unresolved, [receiver, GuardFor(field.name)])
    }

    /** `genPutField`: a reference store carries a write barrier. */
    function GenPutField(receiver: Arg, field: RiField, value: Arg): (r: Snippet)
      reads this
      requires Built() && HasKindTemplates(field.kind)
      ensures r.template.op == PutField(field.kind, field.kind == Object, false, field.ResolvedField?)
      ensures r.args == [receiver, value, if field.ResolvedField? then IntConst(field.offset) else GuardFor(field.name)]
    {
      PerKindIsBuilt(field.kind);
      var pair := Cat().perKind[field.kind].putField;
      if field.ResolvedField? then Snippet(pair.resolved, [receiver, value, IntConst(field.offset)])
      else Snippet(pair.unresolved, [receiver, value, GuardFor(field.name)])
    }

    function GenGetStatic(staticTuple: Arg, field: RiField): (r: Snippet)
      reads this
      requires Built() && HasKindTemplates(field.kind)
      ensures r.template.op == GetField(field.kind, true, field.ResolvedField?)
      ensures r.args == [staticTuple, if field.ResolvedField? then IntConst(field.offset) else GuardFor(field.name)]
    {
      PerKindIsBuilt(field.kind);
      var pair := Cat().perKind[field.kind].getStaticField;
      if field.ResolvedField? then Snippet(pair.resolved, [staticTuple, IntConst(field.offset)])
      else Snippet(pair.unresolved, [staticTuple, GuardFor(field.name)])
    }

    function GenPutStatic(staticTuple: Arg, field: RiField, value: Arg): (r: Snippet)
      reads this
      requires Built() && HasKindTemplates(field.kind)
      ensures r.template.op == PutField(field.kind, field.kind == Object, true, field.ResolvedField?)
      ensures r.args == [staticTuple, value, if field.ResolvedField? then IntConst(field.offset) else GuardFor(field.name)]
    {
      PerKindIsBuilt(field.kind);
      var pair := Cat().perKind[field.kind].putStaticField;
      if field.ResolvedField? then Snippet(pair.resolved, [staticTuple, value, IntConst(field.offset)])
      else Snippet(pair.unresolved, [staticTuple, value, GuardFor(field.name)])
    }

    /**
     * `genNewInstance`: only a resolved, initialised class gets a resolved
     * template (the hybrid one for a hybrid class); TLAB allocation also
     * passes the tuple size.
     */
    function GenNewInstance(useTLABs: bool, t: RiType): (r: Snippet)
      reads this
      requires Built()
      ensures var resolved := t.ResolvedType? && t.isInitialized;
        && r.template.op == (if useTLABs then TlabNewInstance(resolved, resolved && t.isHybrid, cfg.useOutOfLineStubs)
                             else NewInstance(resolved, resolved && t.isHybrid))
        && r.args == (if !resolved then [TypeGuard(t)]
                      else if useTLABs then [HubConst(t.hub), IntConst(t.tupleSize)]
                      else [HubConst(t.hub)])
    {
      var templates := if useTLABs then Cat().tlabNewInstance else Cat().newInstance;
      if t.ResolvedType? && t.isInitialized then
        var template := if t.isHybrid then templates.resolvedHybrid else templates.resolved;
        if useTLABs then Snippet(template, [HubConst(t.hub), IntConst(t.tupleSize)])
        else Snippet(template, [HubConst(t.hub)])
      else Snippet(templates.unresolved, [TypeGuard(t)])
    }

    /**
     * `genNewArray`: a primitive array uses the boot registry's hub for its
     * kind; a reference array needs a resolved array type; without a hub the
     * site is guarded by its component type.
     */
    function GenNewArray(useTLABs: bool, length: Arg, elementKind: Kind, componentType: RiType, arrayType: RiType): (r: Snippet)
      reads this
      requires Built() && HasKindTemplates(elementKind)
      ensures var hub := if elementKind == Object then (if arrayType.ResolvedType? then Some(arrayType.hub) else None)
                         else (if elementKind in registryArrayHubs then Some(registryArrayHubs[elementKind]) else None);
        && (hub.Some? ==> r.args == [HubConst(hub.value), length])
        && (hub.None? ==> r.args == [ComponentGuardFor(componentType.name), length])
        && (if useTLABs then r.template.op.TlabNewArray? && r.template.op.outOfLine == (cfg.useOutOfLineStubs || (elementKind == Object && hub.None?))
            else r.template.op.NewArray?)
        && r.template.op.kind == elementKind
        && (elementKind == Object ==> r.template.op.resolved == hub.Some?)
    {
      PerKindIsBuilt(elementKind);
      var pair := if useTLABs then Cat().perKind[elementKind].tlabNewArray else Cat().perKind[elementKind].newArray;
      var hub := if elementKind == Object then (if arrayType.ResolvedType? then Some(arrayType.hub) else None)
                 else (if elementKind in Cat().arrayHubs then Some(Cat().arrayHubs[elementKind]) else None);
      if hub.Some? then Snippet(pair.resolved, [HubConst(hub.value), length])
      else Snippet(pair.unresolved, [ComponentGuardFor(componentType.name), length])
    }

    /**
     * `genNewMultiArray` as written: an unresolved type or a rank of at least
     * SMALL_MULTIANEWARRAY_RANK indexes the rank table directly, so a rank past
     * MAX_MULTIANEWARRAY_RANK is an index out of bounds. The bound check that
     * follows that branch only sees ranks below SMALL_MULTIANEWARRAY_RANK and
     * can never fail, so it is not part of this definition.
     */
    function GenNewMultiArrayAsWritten(lengths: seq<Arg>, t: RiType): (r: Result<Snippet, GenError>)
      reads this
      requires Built()
      ensures |lengths| > MAX_MULTIANEWARRAY_RANK ==> r == Failure(TemplateIndexOutOfBounds(|lengths|))
      ensures r.Failure? <==> |lengths| == 0 || |lengths| > MAX_MULTIANEWARRAY_RANK
    {
      var rank := |lengths|;
      var table := Cat().multiNewArray;
      if !t.ResolvedType? || rank >= SMALL_MULTIANEWARRAY_RANK then
        if rank >= |table| then Failure(TemplateIndexOutOfBounds(rank))
        else if table[rank].None? then Failure(NullTemplate)
        else Success(Snippet(table[rank].value.unresolved, lengths + [TypeGuard(t)]))
      else if table[rank].None? then Failure(NullTemplate)
      else Success(Snippet(table[rank].value.resolved, lengths + [HubConst(t.hub)]))
    }

    /**
     * `genNewMultiArray` with the rank bound checked before the table is
     * indexed: a rank without a template is reported as unimplemented. A
     * resolved type of a small rank gets the resolved template and passes its
     * hub; otherwise the lengths are followed by the type's guard.
     */
    function GenNewMultiArray(lengths: seq<Arg>, t: RiType): (r: Result<Snippet, GenError>)
      reads this
      requires Built()
      ensures r.Failure? <==> |lengths| == 0 || |lengths| > MAX_MULTIANEWARRAY_RANK
      ensures |lengths| > MAX_MULTIANEWARRAY_RANK ==> r == Failure(Unimplemented)
      ensures r.Success? ==>
        var small := t.ResolvedType? && |lengths| < SMALL_MULTIANEWARRAY_RANK;
        && r.value.template.op == NewMultiArray(|lengths|, small)
        && r.value.args == lengths + [if small then HubConst(t.hub) else TypeGuard(t)]
    {
      var rank := |lengths|;
      var table := Cat().multiNewArray;
      if rank >= |table| then Failure(Unimplemented)
      else if table[rank].None? then Failure(NullTemplate)
      else if !t.ResolvedType? || rank >= SMALL_MULTIANEWARRAY_RANK then
        Success(Snippet(table[rank].value.unresolved, lengths + [TypeGuard(t)]))
      else Success(Snippet(table[rank].value.resolved, lengths + [HubConst(t.hub)]))
    }

    /** `genCheckCast`: the leaf test for a final non-array class, the class-id test for other resolved classes. */
    function GenCheckCast(obj: Arg, hub: Arg, t: RiType): (r: Snippet)
      reads this
      requires Built()
      ensures IsLeafType(t) ==> r.template.op == CheckcastLeaf(false) && r.args == [obj, hub]
      ensures t.ResolvedType? && !IsLeafType(t) ==> r.template.op == CheckcastNonLeaf(false) && r.args == [obj, IntConst(t.id), hub]
      ensures t.UnresolvedType? ==> r.template.op == CheckcastUnresolved(false) && r.args == [obj, TypeGuard(t)]
    {
      if t.ResolvedType? then
        if t.isFinal && !t.isArrayClass then Snippet(Cat().checkcastForLeaf.resolved, [obj, hub])
        else Snippet(Cat().checkcastForNonLeaf.resolved, [obj, IntConst(t.id), hub])
      else Snippet(Cat().checkcastForNonLeaf.unresolved, [obj, TypeGuard(t)])
    }

    function GenInstanceOf(obj: Arg, hub: Arg, t: RiType): (r: Snippet)
      reads this
      requires Built()
      ensures IsLeafType(t) ==> r.template.op == InstanceofLeaf(false) && r.args == [obj, hub]
      ensures t.ResolvedType? && !IsLeafType(t) ==> r.template.op == InstanceofNonLeaf(false) && r.args == [obj, IntConst(t.id), hub]
      ensures t.UnresolvedType? ==> r.template.op == InstanceofUnresolved(false) && r.args == [obj, TypeGuard(t)]
    {
      if t.ResolvedType? then
        if t.isFinal && !t.isArrayClass then Snippet(Cat().instanceofForLeaf.resolved, [obj, hub])
        else Snippet(Cat().instanceofForNonLeaf.resolved, [obj, IntConst(t.id), hub])
      else Snippet(Cat().instanceofForNonLeaf.unresolved, [obj, TypeGuard(t)])
    }

    /** `genMaterializeInstanceOf`: the leaf test drops its null check when the site knows the receiver is non-null. */
    function GenMaterializeInstanceOf(receiverNonNull: bool, receiver: Arg, hub: Arg, trueValue: Arg, falseValue: Arg, t: RiType): (r: Snippet)
      reads this
      requires Built()
      ensures IsLeafType(t) ==>
        r.template.op == MaterializeInstanceOf(receiverNonNull, true) && r.args == [receiver, hub, trueValue, falseValue]
      ensures t.ResolvedType? && !IsLeafType(t) ==>
        r.template.op == MaterializeInstanceOf(false, false) && r.args == [receiver, hub, trueValue, falseValue, IntConst(t.id)]
      ensures t.UnresolvedType? ==>
        r.template.op == MaterializeUnresolved(false) && r.args == [receiver, TypeGuard(t), trueValue, falseValue]
    {
      if t.ResolvedType? then
        if t.isFinal && !t.isArrayClass then
          var template := if receiverNonNull then Cat().materializedInstanceofForLeafAndNonNull.resolved
                          else Cat().materializedInstanceofForLeaf.resolved;
          Snippet(template, [receiver, hub, trueValue, falseValue])
        else Snippet(Cat().materializedInstanceofForNonLeaf.resolved, [receiver, hub, trueValue, falseValue, IntConst(t.id)])
      else Snippet(Cat().materializedInstanceofForNonLeaf.unresolved, [receiver, TypeGuard(t), trueValue, falseValue])
    }

    /** `genTypeCheck`: only for a resolved type. */
    function GenTypeCheck(obj: Arg, hub: Arg, t: RiType): (r: Snippet)
      reads this
      requires Built() && t.ResolvedType?
      ensures r.template.op == TypeAssert && r.args == [obj, hub]
    {
      Snippet(Cat().typeAssert, [obj, hub])
    }

    function GenArrayLoad(requiresBoundsCheck: bool, arrayRef: Arg, index: Arg, elementKind: Kind): (r: Snippet)
      reads this
      requires Built() && HasKindTemplates(elementKind)
      ensures r.template.op == ArrayLoad(elementKind, requiresBoundsCheck) && r.args == [arrayRef, index]
    {
      PerKindIsBuilt(elementKind);
      var template := if requiresBoundsCheck then Cat().perKind[elementKind].arrayLoad
                      else Cat().perKind[elementKind].arrayLoadNoBoundsCheck;
      Snippet(template, [arrayRef, index])
    }

    /**
     * `genArrayStore`: the template has a bounds check exactly when the site
     * asks for one, a store check exactly when the site asks for one on a
     * reference array, and a write barrier exactly for reference arrays.
     */
    function GenArrayStore(requiresBoundsCheck: bool, requiresStoreCheck: bool, arrayRef: Arg, index: Arg, value: Arg, elementKind: Kind): (r: Snippet)
      reads this
      requires Built() && HasKindTemplates(elementKind)
      ensures r.template.op == ArrayStore(elementKind, requiresBoundsCheck, elementKind == Object && requiresStoreCheck, elementKind == Object)
      ensures r.args == [arrayRef, index, value]
    {
      PerKindIsBuilt(elementKind);
      var template :=
        if elementKind == Object then
          if requiresBoundsCheck && requiresStoreCheck then Cat().perKind[Object].arrayStore
          else if requiresStoreCheck then Cat().perKind[Object].arrayStoreNoBoundsCheck
          else if requiresBoundsCheck then Cat().arrayStoreNoStoreCheck
          else Cat().arrayStoreNoBoundsOrStoreCheck
        else if requiresBoundsCheck then Cat().perKind[elementKind].arrayStore
        else Cat().perKind[elementKind].arrayStoreNoBoundsCheck;
      Snippet(template, [arrayRef, index, value])
    }

    function GenArrayLength(arrayRef: Arg): (r: Snippet)
      reads this
      requires Built()
      ensures r.template.op == ArrayLength && r.args == [arrayRef]
    {
      Snippet(Cat().arraylength, [arrayRef])
    }

    function GenExceptionObject(): (r: Snippet)
      reads this
      requires Built()
      ensures r.template.op == ExceptionObject && r.args == []
    {
      Snippet(Cat().exceptionObject, [])
    }

    // ----- what the selected templates compute -----

    /**
     * The checkcast a resolved site gets, run with the site's hub and class id,
     * accepts exactly the objects assignable to the type, whichever of the leaf
     * and class-id tests was selected.
     */
    lemma GenCheckCastIsSubtypeTest(types: TypeInfo, cells: seq<Cell>, obj: Value, objArg: Arg, t: RiType)
      requires Built()
      requires TypesValid(types) && TypeChecks.Checkable(types, cells, obj)
      requires t.ResolvedType? && t.id >= 0 && t.hub in types.hubs && types.hubs[t.hub].classId == t.id
      requires IsLeafType(t) ==> LeafHub(types, t.hub)
      ensures TypeChecks.Probeable(types, cells, obj)
      ensures var s := GenCheckCast(objArg, HubConst(t.hub), t);
        && (s.template.op.CheckcastLeaf? || s.template.op.CheckcastNonLeaf?)
        && (s.template.op.CheckcastLeaf? ==>
              (TypeChecks.CheckcastLeaf(types, cells, false, obj, s.args[1].hub).Success?
               <==> TypeChecks.Assignable(types, cells, obj, t.id)))
        && (s.template.op.CheckcastNonLeaf? ==>
              (TypeChecks.CheckcastNonLeaf(types, cells, false, obj, s.args[1].value, s.args[2].hub).Success?
               <==> TypeChecks.Assignable(types, cells, obj, t.id)))
    {
      TypeChecks.NonLeafChecksAreSubtypeTests(types, cells, false, obj, t.id, t.hub);
      if IsLeafType(t) {
        TypeChecks.LeafChecksAreSubtypeTests(types, cells, false, obj, t.hub);
      }
    }

    /** The instanceof a resolved site gets answers true exactly for non-null objects assignable to the type. */
    lemma GenInstanceOfIsSubtypeTest(types: TypeInfo, cells: seq<Cell>, obj: Value, objArg: Arg, t: RiType)
      requires Built()
      requires TypesValid(types) && TypeChecks.Checkable(types, cells, obj)
      requires t.ResolvedType? && t.id >= 0 && t.hub in types.hubs && types.hubs[t.hub].classId == t.id
      requires IsLeafType(t) ==> LeafHub(types, t.hub)
      ensures TypeChecks.Probeable(types, cells, obj)
      ensures var s := GenInstanceOf(objArg, HubConst(t.hub), t);
        && (s.template.op.InstanceofLeaf? || s.template.op.InstanceofNonLeaf?)
        && (s.template.op.InstanceofLeaf? ==>
              (TypeChecks.InstanceofLeaf(types, cells, false, obj, s.args[1].hub)
               <==> obj.Ref? && TypeChecks.Assignable(types, cells, obj, t.id)))
        && (s.template.op.InstanceofNonLeaf? ==>
              (TypeChecks.InstanceofNonLeaf(types, cells, false, obj, s.args[1].value, s.args[2].hub)
               <==> obj.Ref? && TypeChecks.Assignable(types, cells, obj, t.id)))
    {
      TypeChecks.NonLeafChecksAreSubtypeTests(types, cells, false, obj, t.id, t.hub);
      if IsLeafType(t) {
        TypeChecks.LeafChecksAreSubtypeTests(types, cells, false, obj, t.hub);
      }
    }

    /**
     * The materialising instanceof a resolved site gets yields its true value
     * exactly for non-null objects assignable to the type, also when the site
     * drops the null check for a receiver it knows to be non-null.
     */
    lemma GenMaterializeInstanceOfIsSubtypeTest(types: TypeInfo, cells: seq<Cell>, obj: Value, receiverNonNull: bool,
                                                 objArg: Arg, t: RiType, trueValue: int, falseValue: int)
      requires Built()
      requires TypesValid(types) && TypeChecks.Checkable(types, cells, obj) && (receiverNonNull ==> obj.Ref?)
      requires t.ResolvedType? && t.id >= 0 && t.hub in types.hubs && types.hubs[t.hub].classId == t.id
      requires IsLeafType(t) ==> LeafHub(types, t.hub)
      ensures TypeChecks.Probeable(types, cells, obj)
      ensures var s := GenMaterializeInstanceOf(receiverNonNull, objArg, HubConst(t.hub), IntConst(trueValue), IntConst(falseValue), t);
        && s.template.op.MaterializeInstanceOf?
        && (s.template.op.nonnull ==> obj.Ref?)
        && TypeChecks.MaterializeInstanceOf(types, cells, s.template.op.nonnull, s.template.op.leaf, obj,
             t.hub, trueValue, falseValue, t.id)
           == if obj.Ref? && TypeChecks.Assignable(types, cells, obj, t.id) then trueValue else falseValue
    {
      TypeChecks.NonLeafChecksAreSubtypeTests(types, cells, false, obj, t.id, t.hub);
      if IsLeafType(t) {
        TypeChecks.LeafChecksAreSubtypeTests(types, cells, receiverNonNull, obj, t.hub);
      }
    }

    /**
     * The constant a resolved invokevirtual site passes makes the template
     * load vtable entry `vTableIndex` of the receiver's hub.
     */
    lemma GenInvokeVirtualReachesVTableEntry(types: TypeInfo, cells: seq<Cell>, receiver: Value, receiverArg: Arg, m: RiMethod)
      requires Built() && layout.wordSize > 0
      requires Dispatch.ReceiverKnown(types, cells, receiver) && receiver.Ref?
      requires m.ResolvedMethod? && m.vTableIndex < |Dispatch.ReceiverHub(types, cells, receiver).wordView|
      ensures var s := GenInvokeVirtual(receiverArg, m);
        && s.template.op == InvokeVirtual(true)
        && Dispatch.HubWordAt(layout, Dispatch.ReceiverHub(types, cells, receiver), s.args[1].value).Some?
        && Dispatch.InvokeVirtual(types, cells, layout, receiver, s.args[1].value)
           == Success(Dispatch.ReceiverHub(types, cells, receiver).wordView[m.vTableIndex])
    {
      Dispatch.ResolvedVirtualDispatch(types, cells, layout, receiver, m.vTableIndex);
    }

    /**
     * Finding: a multi-dimensional allocation of rank MAX_MULTIANEWARRAY_RANK + 1
     * indexes past the rank table as written; with the bound checked first it
     * is reported as unimplemented.
     */
    lemma MultiArrayRankPastTable(lengths: seq<Arg>, t: RiType)
      requires Built() && |lengths| == MAX_MULTIANEWARRAY_RANK + 1
      ensures GenNewMultiArrayAsWritten(lengths, t) == Failure(TemplateIndexOutOfBounds(7))
      ensures GenNewMultiArray(lengths, t) == Failure(Unimplemented)
    {
    }
  }
}
