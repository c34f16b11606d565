/**
 * What the invokevirtual and invokeinterface templates compute: the entry
 * address a call site jumps to. A virtual call loads the word at a constant
 * byte offset from the receiver's hub; an interface call hashes the interface
 * id into the hub's mtable, reads the base index of the interface's table
 * from the int view, and loads the word `methodIndex` entries further on.
 */
module Dispatch {
  import opened Wrappers
  import opened ObjectModel

  /**
   * The constant a resolved invokevirtual site passes: vtable entry
   * `vTableIndex` as a byte offset from the hub. The offset decodes back to the
   * index: it is word-aligned past the first element, `vTableIndex` words on.
   */
  function VTableOffset(layout: Layout, vTableIndex: nat): (offset: int)
    ensures layout.wordSize > 0 ==>
      && offset >= layout.firstElementOffset
      && (offset - layout.firstElementOffset) % layout.wordSize == 0
      && (offset - layout.firstElementOffset) / layout.wordSize == vTableIndex
  {
    if layout.wordSize > 0 then
      MulDivCancel(vTableIndex, layout.wordSize);
      vTableIndex * layout.wordSize + layout.firstElementOffset
    else
      vTableIndex * layout.wordSize + layout.firstElementOffset
  }

  /**
   * The offset the runtime resolver hands to an unresolved invokevirtual site;
   * it is based on the hybrid header size, and decodes back to the index
   * relative to that size.
   */
  function ResolverVTableOffset(layout: Layout, vTableIndex: nat): (offset: int)
    ensures layout.wordSize > 0 ==>
      && offset >= layout.hybridHeaderSize
      && (offset - layout.hybridHeaderSize) % layout.wordSize == 0
      && (offset - layout.hybridHeaderSize) / layout.wordSize == vTableIndex
  {
    if layout.wordSize > 0 then
      MulDivCancel(vTableIndex, layout.wordSize);
      vTableIndex * layout.wordSize + layout.hybridHeaderSize
    else
      vTableIndex * layout.wordSize + layout.hybridHeaderSize
  }

  lemma MulAtLeast(x: int, w: int)
    requires x >= 1 && w > 0
    ensures x * w >= w
  {
  }

  lemma MulDivCancel(i: nat, w: nat)
    requires w > 0
    ensures (i * w) % w == 0 && (i * w) / w == i
  {
    var q := (i * w) / w;
    var r := (i * w) % w;
    assert i * w == q * w + r;
    assert (q - i) * w == -r;
    if q > i { MulAtLeast(q - i, w); }
    if q < i { MulAtLeast(i - q, w); }
  }

  /** The word of the hub's hybrid part at a byte offset from the hub, when the offset addresses one. */
  function HubWordAt(layout: Layout, hub: Hub, offset: int): (r: Option<int>)
    requires layout.wordSize > 0
    ensures r.Some? <==>
      (offset >= layout.firstElementOffset && (offset - layout.firstElementOffset) % layout.wordSize == 0
       && (offset - layout.firstElementOffset) / layout.wordSize < |hub.wordView|)
  {
    var rel := offset - layout.firstElementOffset;
    if rel >= 0 && rel % layout.wordSize == 0 && rel / layout.wordSize < |hub.wordView| then
      Some(hub.wordView[rel / layout.wordSize])
    else None
  }

  /** The receiver's hub, which is known for every object. */
  function ReceiverHub(types: TypeInfo, cells: seq<Cell>, receiver: Value): Hub
    requires receiver.Ref? && receiver.addr < |cells| && cells[receiver.addr].hub in types.hubs
  {
    types.hubs[cells[receiver.addr].hub]
  }

  predicate ReceiverKnown(types: TypeInfo, cells: seq<Cell>, receiver: Value)
  {
    ValidRef(cells, receiver) && (receiver.Ref? ==> cells[receiver.addr].hub in types.hubs)
  }

  /**
   * The invokevirtual template: the hub load traps on a null receiver, then the
   * word at the vtable offset is the entry address. The offset a site passes
   * addresses a vtable entry of every receiver the site can see.
   */
  function InvokeVirtual(types: TypeInfo, cells: seq<Cell>, layout: Layout, receiver: Value, vtableOffset: int): (r: Result<int, Throwable>)
    requires layout.wordSize > 0 && ReceiverKnown(types, cells, receiver)
    requires receiver.Ref? ==> HubWordAt(layout, ReceiverHub(types, cells, receiver), vtableOffset).Some?
    ensures r.Failure? <==> receiver.Null?
    ensures r.Failure? ==> r.error == NullPointerException
  {
    if receiver.Null? then Failure(NullPointerException)
    else Success(HubWordAt(layout, ReceiverHub(types, cells, receiver), vtableOffset).value)
  }

  /** A resolved site's offset reaches vtable entry `vTableIndex` of the receiver's hub. */
  lemma ResolvedVirtualDispatch(types: TypeInfo, cells: seq<Cell>, layout: Layout, receiver: Value, vTableIndex: nat)
    requires layout.wordSize > 0 && ReceiverKnown(types, cells, receiver) && receiver.Ref?
    requires vTableIndex < |ReceiverHub(types, cells, receiver).wordView|
    ensures HubWordAt(layout, ReceiverHub(types, cells, receiver), VTableOffset(layout, vTableIndex)).Some?
    ensures InvokeVirtual(types, cells, layout, receiver, VTableOffset(layout, vTableIndex))
         == Success(ReceiverHub(types, cells, receiver).wordView[vTableIndex])
  {
    MulDivCancel(vTableIndex, layout.wordSize);
    assert VTableOffset(layout, vTableIndex) - layout.firstElementOffset == vTableIndex * layout.wordSize;
  }

  /**
   * The unresolved invokevirtual template: the runtime resolves the method
   * first (so a resolution error comes before a null check), then the template
   * continues as the resolved one with the offset it was given.
   */
  function InvokeVirtualUnresolved(types: TypeInfo, cells: seq<Cell>, layout: Layout, receiver: Value,
                                   resolution: Result<int, Throwable>): (r: Result<int, Throwable>)
    requires layout.wordSize > 0 && ReceiverKnown(types, cells, receiver)
    requires resolution.Success? && receiver.Ref? ==>
      HubWordAt(layout, ReceiverHub(types, cells, receiver), resolution.value).Some?
    ensures resolution.Failure? ==> r == Failure(resolution.error)
    ensures resolution.Success? ==> r == InvokeVirtual(types, cells, layout, receiver, resolution.value)
  {
    match resolution
    case Failure(e) => Failure(e)
    case Success(offset) => InvokeVirtual(types, cells, layout, receiver, offset)
  }

  /**
   * An unresolved site reaches the same vtable entry as a resolved one exactly
   * when the hybrid header size is the byte array's first-element offset.
   */
  lemma UnresolvedVirtualDispatch(layout: Layout, vTableIndex: nat)
    ensures ResolverVTableOffset(layout, vTableIndex) == VTableOffset(layout, vTableIndex)
        <==> layout.hybridHeaderSize == layout.firstElementOffset
  {
  }

  /** Whether the receiver's hub has an interface-table entry `methodIndex` words past the interface id's base. */
  predicate InterfaceEntryExists(hub: Hub, interfaceID: int, methodIndex: int)
  {
    && interfaceID >= 0 && MTableWellFormed(hub)
    && 0 <= MTableBase(hub, interfaceID) + methodIndex < |hub.wordView|
  }

  /**
   * The invokeinterface template: `slot = interfaceID mod mTableLength +
   * mTableStartIndex`; the int at that slot plus `methodIndex` indexes the word
   * that is the entry address. A null receiver traps on the hub load.
   */
  function InvokeInterface(types: TypeInfo, cells: seq<Cell>, receiver: Value, interfaceID: int, methodIndex: int): (r: Result<int, Throwable>)
    requires ReceiverKnown(types, cells, receiver)
    requires receiver.Ref? ==> InterfaceEntryExists(ReceiverHub(types, cells, receiver), interfaceID, methodIndex)
    ensures r.Failure? <==> receiver.Null?
    ensures r.Failure? ==> r.error == NullPointerException
    ensures r.Success? ==>
      var hub := ReceiverHub(types, cells, receiver);
      r.value == hub.wordView[hub.intView[JavaRem(interfaceID, hub.mTableLength) + hub.mTableStartIndex] + methodIndex]
  {
    if receiver.Null? then Failure(NullPointerException)
    else
      var hub := ReceiverHub(types, cells, receiver);
      Success(hub.wordView[MTableBase(hub, interfaceID) + methodIndex])
  }

  /**
   * The unresolved invokeinterface template: the runtime supplies the method
   * index and then the interface id (a resolution error comes first); the rest
   * is the resolved template.
   */
  function InvokeInterfaceUnresolved(types: TypeInfo, cells: seq<Cell>, receiver: Value,
                                     methodIndex: Result<int, Throwable>, interfaceID: Result<int, Throwable>): (r: Result<int, Throwable>)
    requires ReceiverKnown(types, cells, receiver)
    requires methodIndex.Success? && interfaceID.Success? && receiver.Ref? ==>
      InterfaceEntryExists(ReceiverHub(types, cells, receiver), interfaceID.value, methodIndex.value)
    requires methodIndex.Success? && interfaceID.Success? ==> interfaceID.value >= 0
    ensures methodIndex.Failure? ==> r == Failure(methodIndex.error)
    ensures methodIndex.Success? && interfaceID.Failure? ==> r == Failure(interfaceID.error)
    ensures methodIndex.Success? && interfaceID.Success? ==>
      r == InvokeInterface(types, cells, receiver, interfaceID.value, methodIndex.value)
  {
    if methodIndex.Failure? then Failure(methodIndex.error)
    else if interfaceID.Failure? then Failure(interfaceID.error)
    else InvokeInterface(types, cells, receiver, interfaceID.value, methodIndex.value)
  }

  /**
   * Interface dispatch and the non-leaf type check use the same table: when the
   * receiver's class implements the interface, the word the type check compares
   * with the interface id sits at the base from which the method entry is
   * counted.
   */
  lemma InterfaceDispatchUsesCheckedTable(types: TypeInfo, cells: seq<Cell>, receiver: Value, interfaceID: int, methodIndex: int)
    requires TypesValid(types) && ReceiverKnown(types, cells, receiver) && receiver.Ref?
    requires interfaceID >= 0 && IsSubClassHub(types, cells[receiver.addr].hub, interfaceID)
    requires 0 <= MTableBase(ReceiverHub(types, cells, receiver), interfaceID) + methodIndex < |ReceiverHub(types, cells, receiver).wordView|
    ensures var hub := ReceiverHub(types, cells, receiver);
      && hub.wordView[MTableBase(hub, interfaceID)] == interfaceID
      && InvokeInterface(types, cells, receiver, interfaceID, methodIndex)
         == Success(hub.wordView[MTableBase(hub, interfaceID) + methodIndex])
  {
  }

  /** Two interfaces a hub implements never share a table: their ids sit at different bases. */
  lemma DistinctInterfacesDistinctTables(hub: Hub, id1: int, id2: int)
    requires MTableWellFormed(hub) && id1 >= 0 && id2 >= 0 && id1 != id2
    requires ProbeWord(hub, id1) == id1 && ProbeWord(hub, id2) == id2
    ensures MTableBase(hub, id1) != MTableBase(hub, id2)
  {
  }
}
