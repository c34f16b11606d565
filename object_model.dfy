/**
 * The abstract heap the templates run against: hubs (one per class, holding the
 * class id, the mtable geometry, an int view and a word view of the hub's
 * hybrid array part, and a component hub for array classes), cells (objects and
 * arrays with their hub), and the subclass relation between hubs and classes.
 * A class is identified with its dynamic hub.
 */
module ObjectModel {
  import opened Wrappers
  import opened Kinds

  type Addr = nat

  /** The 32-bit two's-complement range of a Java int. */
  type Int32 = x: int | -0x8000_0000 <= x < 0x8000_0000

  const TWO_TO_32: int := 0x1_0000_0000

  /** A value held in a variable, field or array element. */
  datatype Value = Null | Ref(addr: Addr) | Prim(bits: int)

  datatype Hub = Hub(
    classId: int,
    mTableLength: int,
    mTableStartIndex: int,
    intView: seq<int>,
    wordView: seq<int>,
    componentHub: Option<Addr>,
    elementKind: Kind,
    tupleSize: int)

  /** An object or an array: its hub and its elements (the fields of a tuple). */
  datatype Cell = Cell(hub: Addr, elems: seq<Value>)

  /** The classes known to the VM and the relation `(hub, classId)` of isSubClassHub. */
  datatype TypeInfo = TypeInfo(hubs: map<Addr, Hub>, subclassHub: set<(Addr, int)>)

  /**
   * Byte offsets and sizes of the object layout. `firstElementOffset` is the
   * offset of element 0 of a byte array; `hybridHeaderSize` the header size of
   * the hybrid layout used by hubs. The object alignment is 2^alignmentLog2.
   */
  datatype Layout = Layout(
    wordSize: nat,
    hubOffset: int,
    arrayLengthOffset: int,
    firstElementOffset: int,
    hybridHeaderSize: int,
    arrayHeaderSize: int,
    alignmentLog2: nat,
    hubFirstWordIndex: int)

  predicate IsSubClassHub(types: TypeInfo, hub: Addr, classId: int)
  {
    (hub, classId) in types.subclassHub
  }

  /** Java's `%` on ints: the remainder takes the sign of the dividend. */
  function JavaRem(a: int, b: int): (r: int)
    requires b != 0
    ensures a >= 0 ==> 0 <= r < (if b > 0 then b else -b)
    ensures a < 0 ==> -(if b > 0 then b else -b) < r <= 0
    ensures a >= 0 ==> r == a % (if b > 0 then b else -b)
  {
    var m := if b > 0 then b else -b;
    var q := (if a >= 0 then a else -a) % m;
    if a >= 0 then q else -q
  }

  /** The value of a 32-bit int read as an unsigned number. */
  function Unsigned32(x: Int32): (u: int)
    ensures 0 <= u < TWO_TO_32
    ensures x >= 0 ==> u == x
    ensures x < 0 ==> u >= 0x8000_0000
  {
    if x < 0 then x + TWO_TO_32 else x
  }

  /** The unsigned comparison `a >= b` of two 32-bit ints. */
  predicate UnsignedGreaterOrEqual(a: Int32, b: Int32)
  {
    Unsigned32(a) >= Unsigned32(b)
  }

  /**
   * One unsigned comparison against a non-negative length rejects exactly the
   * indices outside [0, length): negative indices read as huge unsigned values.
   */
  lemma UnsignedBoundsCheck(index: Int32, length: Int32)
    requires length >= 0
    ensures UnsignedGreaterOrEqual(index, length) <==> (index < 0 || index >= length)
  {
  }

  /** A reference that is null or points at an existing cell. */
  predicate ValidRef(cells: seq<Cell>, v: Value)
  {
    v.Null? || (v.Ref? && v.addr < |cells|)
  }

  /** The hub of a non-null reference. */
  function HubOf(cells: seq<Cell>, v: Value): Addr
    requires v.Ref? && v.addr < |cells|
  {
    cells[v.addr].hub
  }

  /** The value a new array's elements start with: null for reference arrays, zero otherwise. */
  function DefaultValue(types: TypeInfo, hub: Addr): Value
    requires hub in types.hubs
  {
    if types.hubs[hub].elementKind == Object then Null else Prim(0)
  }

  /** Every reference stored in the heap points at an existing cell whose hub is known. */
  ghost predicate HeapValid(types: TypeInfo, cells: seq<Cell>)
  {
    forall a :: 0 <= a < |cells| ==>
      && cells[a].hub in types.hubs
      && |cells[a].elems| < 0x8000_0000
      && (forall i :: 0 <= i < |cells[a].elems| ==> ValidRef(cells, cells[a].elems[i]) || cells[a].elems[i].Prim?)
  }

  /** The exceptions the templates and runtime entry points raise. */
  datatype Throwable =
    | NullPointerException
    | ArrayIndexOutOfBoundsException(index: int)
    | ArrayStoreException
    | ClassCastException
    | NegativeArraySizeException(length: Option<int>)  // the length in the message, when given
    | ResolutionError

  /** The mtable geometry of a hub is usable: a positive length and slots that index the word view. */
  predicate MTableWellFormed(hub: Hub)
  {
    && hub.mTableLength > 0
    && 0 <= hub.mTableStartIndex
    && hub.mTableStartIndex + hub.mTableLength <= |hub.intView|
    && forall i :: hub.mTableStartIndex <= i < hub.mTableStartIndex + hub.mTableLength ==>
         0 <= hub.intView[i] < |hub.wordView|
  }

  /** The int-view slot a type id hashes to: `id mod mTableLength + mTableStartIndex`. */
  function MTableSlot(hub: Hub, id: int): (slot: int)
    requires MTableWellFormed(hub) && id >= 0
    ensures hub.mTableStartIndex <= slot < hub.mTableStartIndex + hub.mTableLength
  {
    JavaRem(id, hub.mTableLength) + hub.mTableStartIndex
  }

  /** The word-view index stored at the id's slot. */
  function MTableBase(hub: Hub, id: int): (base: int)
    requires MTableWellFormed(hub) && id >= 0
    ensures 0 <= base < |hub.wordView|
  {
    hub.intView[MTableSlot(hub, id)]
  }

  /** The word the probe for a type id finds. */
  function ProbeWord(hub: Hub, id: int): int
    requires MTableWellFormed(hub) && id >= 0
  {
    hub.wordView[MTableBase(hub, id)]
  }

  /**
   * The probe depends on the id only through its slot: ids congruent modulo
   * the mtable length find the same word, so only the comparison of that word
   * with the id tells them apart.
   */
  lemma ProbeIsPerSlot(hub: Hub, id1: int, id2: int)
    requires MTableWellFormed(hub) && id1 >= 0 && id2 >= 0
    requires id1 % hub.mTableLength == id2 % hub.mTableLength
    ensures MTableSlot(hub, id1) == MTableSlot(hub, id2)
    ensures ProbeWord(hub, id1) == ProbeWord(hub, id2)
    ensures ProbeWord(hub, id1) == id1 && id1 != id2 ==> ProbeWord(hub, id2) != id2
  {
  }

  /**
   * The invariants of the class hierarchy that the templates rely on: every hub
   * is a subclass hub of its own class, every mtable is well formed, and the
   * probe for a class id finds that id exactly when the hub is a subclass hub
   * of that class.
   */
  ghost predicate TypesValid(types: TypeInfo)
  {
    && (forall h :: h in types.hubs ==> IsSubClassHub(types, h, types.hubs[h].classId))
    && (forall h :: h in types.hubs ==> MTableWellFormed(types.hubs[h]))
    && (forall h, id {:trigger IsSubClassHub(types, h, id)} :: h in types.hubs && id >= 0 ==>
          (ProbeWord(types.hubs[h], id) == id <==> IsSubClassHub(types, h, id)))
  }

  /** A final, non-array class: its own hub is the only subclass hub of it. */
  ghost predicate LeafHub(types: TypeInfo, hub: Addr)
    requires hub in types.hubs
  {
    forall h :: h in types.hubs && IsSubClassHub(types, h, types.hubs[hub].classId) ==> h == hub
  }
}
