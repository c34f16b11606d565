/**
 * What the checkcast, instanceof, materialising instanceof and type-assert
 * templates decide. A leaf class (final, not an array) is checked by comparing
 * the object's hub with the class's hub; any other resolved class by that
 * comparison and then a probe of the hub's mtable for the class id; an
 * unresolved class by the runtime's subclass test after resolution.
 */
module TypeChecks {
  import opened Wrappers
  import opened ObjectModel

  /** An object the checks may be given: null or a reference to an object with a known hub. */
  predicate Checkable(types: TypeInfo, cells: seq<Cell>, obj: Value)
  {
    ValidRef(cells, obj) && (obj.Ref? ==> cells[obj.addr].hub in types.hubs)
  }

  /** The object's hub has a usable mtable (true of every hub in a valid hierarchy). */
  predicate Probeable(types: TypeInfo, cells: seq<Cell>, obj: Value)
  {
    Checkable(types, cells, obj) && (obj.Ref? ==> MTableWellFormed(types.hubs[cells[obj.addr].hub]))
  }

  /** The JVM's notion: null passes every check, an object passes when its hub is a subclass hub of the class. */
  ghost predicate Assignable(types: TypeInfo, cells: seq<Cell>, obj: Value, classId: int)
    requires Checkable(types, cells, obj)
  {
    obj.Null? || IsSubClassHub(types, HubOf(cells, obj), classId)
  }

  // ----- leaf classes -----

  /** Resolved checkcast against a leaf class: null passes (unless known non-null), otherwise the hubs must be equal. */
  function CheckcastLeaf(types: TypeInfo, cells: seq<Cell>, nonnull: bool, obj: Value, checkedHub: Addr): (r: Result<Value, Throwable>)
    requires Checkable(types, cells, obj) && (nonnull ==> obj.Ref?)
    ensures r.Success? ==> r.value == obj
    ensures r.Failure? ==> r.error == ClassCastException
    ensures obj.Null? ==> r.Success?
    ensures obj.Ref? ==> (r.Success? <==> HubOf(cells, obj) == checkedHub)
  {
    if !nonnull && obj.Null? then Success(obj)
    else if HubOf(cells, obj) != checkedHub then Failure(ClassCastException)
    else Success(obj)
  }

  /** Resolved instanceof against a leaf class. */
  function InstanceofLeaf(types: TypeInfo, cells: seq<Cell>, nonnull: bool, obj: Value, checkedHub: Addr): (r: bool)
    requires Checkable(types, cells, obj) && (nonnull ==> obj.Ref?)
    ensures obj.Null? ==> !r
    ensures obj.Ref? ==> (r <==> HubOf(cells, obj) == checkedHub)
  {
    if !nonnull && obj.Null? then false
    else HubOf(cells, obj) == checkedHub
  }

  /** For a leaf class, comparing hubs is the JVM's assignability test. */
  lemma LeafChecksAreSubtypeTests(types: TypeInfo, cells: seq<Cell>, nonnull: bool, obj: Value, checkedHub: Addr)
    requires TypesValid(types) && Checkable(types, cells, obj) && (nonnull ==> obj.Ref?)
    requires checkedHub in types.hubs && LeafHub(types, checkedHub)
    ensures CheckcastLeaf(types, cells, nonnull, obj, checkedHub).Success?
        <==> Assignable(types, cells, obj, types.hubs[checkedHub].classId)
    ensures InstanceofLeaf(types, cells, nonnull, obj, checkedHub)
        <==> (obj.Ref? && Assignable(types, cells, obj, types.hubs[checkedHub].classId))
  {
    if obj.Ref? {
      assert IsSubClassHub(types, checkedHub, types.hubs[checkedHub].classId);
    }
  }

  // ----- other resolved classes -----

  /** The non-leaf test after the null check: equal hubs, or the probe for the type id finds the id. */
  predicate NonLeafAccepts(types: TypeInfo, cells: seq<Cell>, obj: Value, typeID: int, checkedHub: Addr)
    requires Probeable(types, cells, obj) && obj.Ref? && typeID >= 0
  {
    HubOf(cells, obj) == checkedHub || ProbeWord(types.hubs[HubOf(cells, obj)], typeID) == typeID
  }

  /** Resolved checkcast against a non-leaf class or interface. */
  function CheckcastNonLeaf(types: TypeInfo, cells: seq<Cell>, nonnull: bool, obj: Value, typeID: int, checkedHub: Addr): (r: Result<Value, Throwable>)
    requires Probeable(types, cells, obj) && (nonnull ==> obj.Ref?) && typeID >= 0
    ensures r.Success? ==> r.value == obj
    ensures r.Failure? ==> r.error == ClassCastException
    ensures obj.Null? ==> r.Success?
    ensures obj.Ref? ==>
      (r.Success? <==> HubOf(cells, obj) == checkedHub
                       || types.hubs[HubOf(cells, obj)].wordView[types.hubs[HubOf(cells, obj)].intView[
                            JavaRem(typeID, types.hubs[HubOf(cells, obj)].mTableLength)
                            + types.hubs[HubOf(cells, obj)].mTableStartIndex]] == typeID)
  {
    if !nonnull && obj.Null? then Success(obj)
    else if NonLeafAccepts(types, cells, obj, typeID, checkedHub) then Success(obj)
    else Failure(ClassCastException)
  }

  /** Resolved instanceof against a non-leaf class or interface. */
  function InstanceofNonLeaf(types: TypeInfo, cells: seq<Cell>, nonnull: bool, obj: Value, typeID: int, checkedHub: Addr): (r: bool)
    requires Probeable(types, cells, obj) && (nonnull ==> obj.Ref?) && typeID >= 0
    ensures obj.Null? ==> !r
    ensures obj.Ref? ==> (r <==> NonLeafAccepts(types, cells, obj, typeID, checkedHub))
  {
    if !nonnull && obj.Null? then false
    else NonLeafAccepts(types, cells, obj, typeID, checkedHub)
  }

  /**
   * In a valid hierarchy, with the checked class's own hub and id, the hub
   * comparison plus the mtable probe is the JVM's assignability test.
   */
  lemma NonLeafAcceptsIsSubtypeTest(types: TypeInfo, cells: seq<Cell>, obj: Value, typeID: int, checkedHub: Addr)
    requires TypesValid(types) && Checkable(types, cells, obj) && obj.Ref? && typeID >= 0
    requires checkedHub in types.hubs && types.hubs[checkedHub].classId == typeID
    ensures Probeable(types, cells, obj)
    ensures NonLeafAccepts(types, cells, obj, typeID, checkedHub) <==> IsSubClassHub(types, HubOf(cells, obj), typeID)
  {
    var h := HubOf(cells, obj);
    assert IsSubClassHub(types, checkedHub, types.hubs[checkedHub].classId);
    assert ProbeWord(types.hubs[h], typeID) == typeID <==> IsSubClassHub(types, h, typeID);
  }

  lemma NonLeafChecksAreSubtypeTests(types: TypeInfo, cells: seq<Cell>, nonnull: bool, obj: Value, typeID: int, checkedHub: Addr)
    requires TypesValid(types) && Checkable(types, cells, obj) && (nonnull ==> obj.Ref?) && typeID >= 0
    requires checkedHub in types.hubs && types.hubs[checkedHub].classId == typeID
    ensures Probeable(types, cells, obj)
    ensures CheckcastNonLeaf(types, cells, nonnull, obj, typeID, checkedHub).Success? <==> Assignable(types, cells, obj, typeID)
    ensures InstanceofNonLeaf(types, cells, nonnull, obj, typeID, checkedHub) <==> (obj.Ref? && Assignable(types, cells, obj, typeID))
  {
    if obj.Ref? {
      NonLeafAcceptsIsSubtypeTest(types, cells, obj, typeID, checkedHub);
    }
  }

  // ----- unresolved classes -----

  /**
   * The unresolved checkcast template: null passes (unless known non-null);
   * otherwise the runtime resolves the class (which may fail) and demands a
   * subclass hub.
   */
  function CheckcastUnresolved(types: TypeInfo, cells: seq<Cell>, nonnull: bool, obj: Value, resolution: Result<int, Throwable>): (r: Result<Value, Throwable>)
    requires Checkable(types, cells, obj) && (nonnull ==> obj.Ref?)
    ensures obj.Null? ==> r == Success(obj)
    ensures obj.Ref? && resolution.Failure? ==> r == Failure(resolution.error)
    ensures obj.Ref? && resolution.Success? ==>
      (if IsSubClassHub(types, HubOf(cells, obj), resolution.value) then r == Success(obj) else r == Failure(ClassCastException))
  {
    if !nonnull && obj.Null? then Success(obj)
    else match resolution
      case Failure(e) => Failure(e)
      case Success(classId) =>
        if !IsSubClassHub(types, HubOf(cells, obj), classId) then Failure(ClassCastException) else Success(obj)
  }

  /** The unresolved instanceof template: false for null, else the runtime's answer after resolution. */
  function InstanceofUnresolved(types: TypeInfo, cells: seq<Cell>, nonnull: bool, obj: Value, resolution: Result<int, Throwable>): (r: Result<bool, Throwable>)
    requires Checkable(types, cells, obj) && (nonnull ==> obj.Ref?)
    ensures obj.Null? ==> r == Success(false)
    ensures obj.Ref? && resolution.Failure? ==> r == Failure(resolution.error)
    ensures obj.Ref? && resolution.Success? ==> r == Success(IsSubClassHub(types, HubOf(cells, obj), resolution.value))
  {
    if !nonnull && obj.Null? then Success(false)
    else match resolution
      case Failure(e) => Failure(e)
      case Success(classId) => Success(IsSubClassHub(types, HubOf(cells, obj), classId))
  }

  /** Once the class resolves to the checked class, an unresolved site decides as a resolved non-leaf site does. */
  lemma UnresolvedAgreesWithResolved(types: TypeInfo, cells: seq<Cell>, nonnull: bool, obj: Value, typeID: int, checkedHub: Addr)
    requires TypesValid(types) && Checkable(types, cells, obj) && (nonnull ==> obj.Ref?) && typeID >= 0
    requires checkedHub in types.hubs && types.hubs[checkedHub].classId == typeID
    ensures Probeable(types, cells, obj)
    ensures CheckcastUnresolved(types, cells, nonnull, obj, Success(typeID))
         == CheckcastNonLeaf(types, cells, nonnull, obj, typeID, checkedHub)
    ensures InstanceofUnresolved(types, cells, nonnull, obj, Success(typeID))
         == Success(InstanceofNonLeaf(types, cells, nonnull, obj, typeID, checkedHub))
  {
    NonLeafChecksAreSubtypeTests(types, cells, nonnull, obj, typeID, checkedHub);
  }

  // ----- materialised instanceof and type assertion -----

  /**
   * The materialising instanceof template: the value `trueValue` or
   * `falseValue` according to the leaf or non-leaf test; null yields
   * `falseValue` unless the object is known non-null.
   */
  function MaterializeInstanceOf(types: TypeInfo, cells: seq<Cell>, nonnull: bool, leaf: bool, obj: Value,
                                 checkedHub: Addr, trueValue: int, falseValue: int, typeID: int): (r: int)
    requires Probeable(types, cells, obj) && (nonnull ==> obj.Ref?) && typeID >= 0
    ensures r == trueValue || r == falseValue
    ensures obj.Null? ==> r == falseValue
    ensures leaf ==> r == (if InstanceofLeaf(types, cells, nonnull, obj, checkedHub) then trueValue else falseValue)
    ensures !leaf ==> r == (if InstanceofNonLeaf(types, cells, nonnull, obj, typeID, checkedHub) then trueValue else falseValue)
  {
    if !nonnull && obj.Null? then falseValue
    else if leaf then (if HubOf(cells, obj) != checkedHub then falseValue else trueValue)
    else if HubOf(cells, obj) == checkedHub then trueValue
    else if ProbeWord(types.hubs[HubOf(cells, obj)], typeID) != typeID then falseValue
    else trueValue
  }

  /** The unresolved materialising template: `falseValue` for null, else by the runtime's (boolean) answer. */
  function MaterializeUnresolved(types: TypeInfo, cells: seq<Cell>, nonnull: bool, obj: Value,
                                 resolution: Result<int, Throwable>, trueValue: int, falseValue: int): (r: Result<int, Throwable>)
    requires Checkable(types, cells, obj) && (nonnull ==> obj.Ref?)
    ensures r.Success? ==> r.value == trueValue || r.value == falseValue
    ensures obj.Null? ==> r == Success(falseValue)
    ensures r.Failure? <==> InstanceofUnresolved(types, cells, nonnull, obj, resolution).Failure?
    ensures r.Success? ==>
      r.value == (if InstanceofUnresolved(types, cells, nonnull, obj, resolution).value then trueValue else falseValue)
  {
    if !nonnull && obj.Null? then Success(falseValue)
    else match resolution
      case Failure(e) => Failure(e)
      case Success(classId) =>
        var answer := IsSubClassHub(types, HubOf(cells, obj), classId);
        if !answer then Success(falseValue) else Success(trueValue)
  }

  datatype TypeAssertOutcome = Continue | Deoptimize

  /** The type assertion on a non-null object: continue on an exact hub match, deoptimise otherwise. */
  function TypeAssert(types: TypeInfo, cells: seq<Cell>, obj: Value, hub: Addr): (r: TypeAssertOutcome)
    requires Checkable(types, cells, obj) && obj.Ref?
    ensures r == Continue <==> HubOf(cells, obj) == hub
  {
    if HubOf(cells, obj) != hub then Deoptimize else Continue
  }
}
