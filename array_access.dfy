/**
 * What the array load and store templates do when they run: the optional
 * bounds check (one unsigned comparison of the index against the length), the
 * optional reference-store check (null values and values whose hub is the
 * array's component hub are stored at once; any other value goes through the
 * runtime's subclass test), and the element access itself.
 */
module ArrayAccess {
  import opened Wrappers
  import opened Kinds
  import opened ObjectModel
  import opened Templates

  /** The runtime entry point `arrayHubStoreCheck`: the value's hub must be a subclass hub of the component class. */
  function ArrayHubStoreCheck(types: TypeInfo, componentHub: Addr, valueHub: Addr): (r: Result<(), Throwable>)
    requires componentHub in types.hubs
    ensures r.Success? <==> IsSubClassHub(types, valueHub, types.hubs[componentHub].classId)
    ensures r.Failure? ==> r.error == ArrayStoreException
  {
    if !IsSubClassHub(types, valueHub, types.hubs[componentHub].classId) then Failure(ArrayStoreException)
    else Success(())
  }

  /**
   * The array load template. A site compiled without a bounds check is one
   * where the compiler has shown the index to be inside the bounds of the
   * array whenever the array is not null; there the element load is the
   * trapping access, so a null array still raises NullPointerException.
   */
  function ArrayLoad(op: Op, cells: seq<Cell>, arrayRef: Value, index: Int32): (r: Result<Value, Throwable>)
    requires op.ArrayLoad?
    requires ValidRef(cells, arrayRef)
    requires arrayRef.Ref? ==> |cells[arrayRef.addr].elems| < 0x8000_0000
    requires !op.boundsCheck && arrayRef.Ref? ==> 0 <= index < |cells[arrayRef.addr].elems|
    ensures arrayRef.Null? ==> r == Failure(NullPointerException)
    ensures arrayRef.Ref? && !(0 <= index < |cells[arrayRef.addr].elems|) ==> r == Failure(ArrayIndexOutOfBoundsException(index))
    ensures r.Success? <==> arrayRef.Ref? && 0 <= index < |cells[arrayRef.addr].elems|
    ensures r.Success? ==> r.value == cells[arrayRef.addr].elems[index]
  {
    // the length load of the bounds check, or else the element load, traps on null
    if arrayRef.Null? then Failure(NullPointerException)
    else
      UnsignedBoundsCheck(index, |cells[arrayRef.addr].elems|);
      if op.boundsCheck && UnsignedGreaterOrEqual(index, |cells[arrayRef.addr].elems|) then
        Failure(ArrayIndexOutOfBoundsException(index))
      else
        Success(cells[arrayRef.addr].elems[index])
  }

  /** How a reference store reaches the element store. */
  datatype StoreRoute =
    | Unchecked    // the template has no store check
    | NullValue    // a null value is stored with no check
    | SameHub      // the value's hub is the array's component hub: stored at once
    | SubclassTest // the runtime's arrayHubStoreCheck decides

  /** The component hub of a reference array. */
  function ComponentHub(types: TypeInfo, cells: seq<Cell>, arrayRef: Value): Addr
    requires arrayRef.Ref? && arrayRef.addr < |cells|
    requires cells[arrayRef.addr].hub in types.hubs && types.hubs[cells[arrayRef.addr].hub].componentHub.Some?
  {
    types.hubs[cells[arrayRef.addr].hub].componentHub.value
  }

  /** The values a reference store may be given: null or a reference to an existing object. */
  predicate StoreOperands(op: Op, types: TypeInfo, cells: seq<Cell>, arrayRef: Value, value: Value)
    requires op.ArrayStore?
  {
    && ValidRef(cells, arrayRef)
    && (arrayRef.Ref? ==> |cells[arrayRef.addr].elems| < 0x8000_0000)
    && (op.storeCheck ==>
          && ValidRef(cells, value)
          && (arrayRef.Ref? ==>
                && cells[arrayRef.addr].hub in types.hubs
                && types.hubs[cells[arrayRef.addr].hub].componentHub.Some?
                && types.hubs[cells[arrayRef.addr].hub].componentHub.value in types.hubs))
  }

  function StoreRouteOf(op: Op, types: TypeInfo, cells: seq<Cell>, arrayRef: Value, value: Value): (route: StoreRoute)
    requires op.ArrayStore? && StoreOperands(op, types, cells, arrayRef, value) && arrayRef.Ref?
    ensures route == Unchecked <==> !op.storeCheck
    ensures op.storeCheck ==> (route == NullValue <==> value.Null?)
    ensures op.storeCheck && value.Ref? ==>
      (route == SameHub <==> ComponentHub(types, cells, arrayRef) == HubOf(cells, value))
  {
    if !op.storeCheck then Unchecked
    else if value.Null? then NullValue
    else if ComponentHub(types, cells, arrayRef) == HubOf(cells, value) then SameHub
    else SubclassTest
  }

  /**
   * The array store template. The bounds check (if any) comes first; then the
   * store check (if any); then the element is written. A site compiled without
   * a bounds check is one where the compiler has shown the index to be inside
   * the bounds of the array whenever the array is not null. A null array traps
   * on the first access to it: the length load of the bounds check, else the
   * hub load of the store check, else the element store.
   */
  function ArrayStore(op: Op, types: TypeInfo, cells: seq<Cell>, arrayRef: Value, index: Int32, value: Value): (r: Result<seq<Cell>, Throwable>)
    requires op.ArrayStore? && StoreOperands(op, types, cells, arrayRef, value)
    requires !op.boundsCheck && arrayRef.Ref? ==> 0 <= index < |cells[arrayRef.addr].elems|
    ensures arrayRef.Null? ==> r == Failure(NullPointerException)
    ensures arrayRef.Ref? && !(0 <= index < |cells[arrayRef.addr].elems|) ==> r == Failure(ArrayIndexOutOfBoundsException(index))
    ensures r.Success? ==>
      && arrayRef.Ref? && 0 <= index < |cells[arrayRef.addr].elems|
      && r.value == cells[arrayRef.addr := Cell(cells[arrayRef.addr].hub, cells[arrayRef.addr].elems[index := value])]
    ensures r.Failure? && arrayRef.Ref? && 0 <= index < |cells[arrayRef.addr].elems| ==>
      r.error == ArrayStoreException && StoreRouteOf(op, types, cells, arrayRef, value) == SubclassTest
  {
    // the first access to the array traps on null
    if arrayRef.Null? then Failure(NullPointerException)
    else
      UnsignedBoundsCheck(index, |cells[arrayRef.addr].elems|);
      if op.boundsCheck && UnsignedGreaterOrEqual(index, |cells[arrayRef.addr].elems|) then
        Failure(ArrayIndexOutOfBoundsException(index))
      else
        var stored := cells[arrayRef.addr := Cell(cells[arrayRef.addr].hub, cells[arrayRef.addr].elems[index := value])];
        match StoreRouteOf(op, types, cells, arrayRef, value)
        case SubclassTest =>
          (match ArrayHubStoreCheck(types, ComponentHub(types, cells, arrayRef), HubOf(cells, value))
           case Failure(e) => Failure(e)
           case Success(_) => Success(stored))
        case _ => Success(stored)
  }

  /**
   * With a store check, an in-bounds reference store succeeds exactly when the
   * value is null or its hub is a subclass hub of the array's component class,
   * as the JVM's aastore demands; the equal-hub fast path never rejects a value
   * the runtime test would accept, nor the reverse.
   */
  lemma StoreCheckIsAssignability(op: Op, types: TypeInfo, cells: seq<Cell>, arrayRef: Value, index: Int32, value: Value)
    requires op.ArrayStore? && op.storeCheck && StoreOperands(op, types, cells, arrayRef, value)
    requires TypesValid(types)
    requires arrayRef.Ref? && 0 <= index < |cells[arrayRef.addr].elems|
    ensures ArrayStore(op, types, cells, arrayRef, index, value).Success? <==>
      (value.Null? || IsSubClassHub(types, HubOf(cells, value), types.hubs[ComponentHub(types, cells, arrayRef)].classId))
  {
    if value.Ref? && ComponentHub(types, cells, arrayRef) == HubOf(cells, value) {
      var h := ComponentHub(types, cells, arrayRef);
      assert IsSubClassHub(types, h, types.hubs[h].classId);
    }
  }

  /** A store without a store check succeeds for every in-bounds index, whatever the value. */
  lemma UncheckedStoreSucceeds(op: Op, types: TypeInfo, cells: seq<Cell>, arrayRef: Value, index: Int32, value: Value)
    requires op.ArrayStore? && !op.storeCheck && StoreOperands(op, types, cells, arrayRef, value)
    requires arrayRef.Ref? && 0 <= index < |cells[arrayRef.addr].elems|
    ensures ArrayStore(op, types, cells, arrayRef, index, value).Success?
  {
  }
}
