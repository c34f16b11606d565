/**
 * The allocation entry points of the runtime-call holder: one-dimensional
 * arrays (with the negative-length check), tuples and hybrids, and
 * multi-dimensional arrays, both the fixed-rank entry points for ranks 1 to 3
 * and the general one that walks the lengths recursively. The heap is a
 * sequence of cells; a new cell is appended at the end.
 */
module RuntimeCalls {
  import opened Wrappers
  import opened Kinds
  import opened ObjectModel

  /** A new array: its hub and `length` elements, each the element kind's default value. */
  function NewArrayCell(types: TypeInfo, hub: Addr, length: nat): (c: Cell)
    requires hub in types.hubs
    ensures c.hub == hub && |c.elems| == length
    ensures forall i :: 0 <= i < length ==> c.elems[i] == DefaultValue(types, hub)
  {
    var v := DefaultValue(types, hub);
    Cell(hub, seq(length, _ => v))
  }

  /** `hub` is an array hub whose component hubs go `depth - 1` levels further down. */
  predicate ArrayHubChain(types: TypeInfo, hub: Addr, depth: nat)
    decreases depth
  {
    && hub in types.hubs
    && (depth > 1 ==>
          && types.hubs[hub].componentHub.Some?
          && ArrayHubChain(types, types.hubs[hub].componentHub.value, depth - 1))
  }

  /** The component hub of an array hub. */
  function ComponentOf(types: TypeInfo, hub: Addr): Addr
    requires hub in types.hubs && types.hubs[hub].componentHub.Some?
  {
    types.hubs[hub].componentHub.value
  }

  /**
   * The number of cells a multi-dimensional allocation with these lengths
   * creates: the array itself, and the sub-arrays only when it has elements
   * and a further dimension exists.
   */
  function Count(ls: seq<int>): (n: nat)
    ensures |ls| > 0 ==> n >= 1
    ensures |ls| > 0 && (ls[0] <= 0 || |ls| == 1) ==> n == 1
    decreases |ls|
  {
    if |ls| == 0 then 0
    else if ls[0] > 0 && |ls| > 1 then 1 + ls[0] * Count(ls[1..])
    else 1
  }

  lemma MulNonneg(i: int, c: int)
    requires i >= 0 && c >= 0
    ensures i * c >= 0
  {
  }

  lemma MulStep(i: int, c: int)
    ensures (i + 1) * c == i * c + c
  {
  }

  /**
   * The cells at `a` onwards hold a multi-dimensional array with lengths `ls`
   * and hub `hub`, laid out in allocation order: the array, then each
   * element's sub-array (with everything below it) in index order. The
   * innermost arrays, and any array with no elements, hold default values.
   */
  ghost predicate MultiArrayAt(types: TypeInfo, cells: seq<Cell>, a: int, hub: Addr, ls: seq<int>)
    requires |ls| > 0
    decreases |ls|, 1
  {
    && 0 <= a < |cells|
    && hub in types.hubs
    && cells[a].hub == hub
    && ls[0] >= 0
    && |cells[a].elems| == ls[0]
    && if ls[0] > 0 && |ls| > 1 then
         && types.hubs[hub].componentHub.Some?
         && SubArraysAt(types, cells, a, hub, ls, ls[0])
       else forall i :: 0 <= i < ls[0] ==> cells[a].elems[i] == DefaultValue(types, hub)
  }

  /**
   * The first `n` elements of the array at `a` are its sub-arrays: element `i`
   * refers to the sub-array right after the `i` earlier sub-arrays and their
   * contents.
   */
  ghost predicate SubArraysAt(types: TypeInfo, cells: seq<Cell>, a: int, hub: Addr, ls: seq<int>, n: nat)
    requires |ls| > 1 && hub in types.hubs && types.hubs[hub].componentHub.Some?
    decreases |ls|, 0
  {
    && 0 <= a < |cells|
    && n <= |cells[a].elems|
    && forall i: nat :: i < n ==>
         && cells[a].elems[i] == Ref(a + 1 + i * Count(ls[1..]))
         && MultiArrayAt(types, cells, a + 1 + i * Count(ls[1..]), ComponentOf(types, hub), ls[1..])
  }

  /** A multi-dimensional array is unaffected by changes to cells below it and by appended cells. */
  lemma {:induction false} MultiArrayFrame(types: TypeInfo, cells: seq<Cell>, cells': seq<Cell>, lo: int, a: int, hub: Addr, ls: seq<int>)
    requires |ls| > 0 && MultiArrayAt(types, cells, a, hub, ls) && 0 <= lo <= a
    requires |cells| <= |cells'|
    requires forall x :: lo <= x < |cells| ==> cells'[x] == cells[x]
    ensures MultiArrayAt(types, cells', a, hub, ls)
    decreases |ls|
  {
    if ls[0] > 0 && |ls| > 1 {
      var c := Count(ls[1..]);
      var sub := ComponentOf(types, hub);
      forall i: nat | i < ls[0]
        ensures cells'[a].elems[i] == Ref(a + 1 + i * c) && MultiArrayAt(types, cells', a + 1 + i * c, sub, ls[1..])
      {
        MulNonneg(i, c);
        MultiArrayFrame(types, cells, cells', lo, a + 1 + i * c, sub, ls[1..]);
      }
    }
  }

  /**
   * Storing a completed sub-array as element `n` extends the sub-arrays of the
   * array at `a` by one; the earlier sub-arrays lie above `a` and are kept.
   */
  lemma SubArraysExtend(types: TypeInfo, cells: seq<Cell>, cells': seq<Cell>, a: int, hub: Addr, ls: seq<int>, n: nat)
    requires |ls| > 1 && hub in types.hubs && types.hubs[hub].componentHub.Some?
    requires SubArraysAt(types, cells, a, hub, ls, n) && n < |cells[a].elems|
    requires |cells| <= |cells'| && cells'[a] == cells[a].(elems := cells[a].elems[n := Ref(a + 1 + n * Count(ls[1..]))])
    requires forall x :: a < x < |cells| ==> cells'[x] == cells[x]
    requires MultiArrayAt(types, cells', a + 1 + n * Count(ls[1..]), ComponentOf(types, hub), ls[1..])
    ensures SubArraysAt(types, cells', a, hub, ls, n + 1)
  {
    var c := Count(ls[1..]);
    forall i: nat | i < n
      ensures cells'[a].elems[i] == Ref(a + 1 + i * c) && MultiArrayAt(types, cells', a + 1 + i * c, ComponentOf(types, hub), ls[1..])
    {
      MulNonneg(i, c);
      MultiArrayFrame(types, cells, cells', a + 1, a + 1 + i * c, ComponentOf(types, hub), ls[1..]);
    }
  }

  /**
   * Every element of a multi-dimensional array with a further dimension is a
   * distinct sub-array of the next length whose hub is the component hub.
   */
  lemma MultiArrayElements(types: TypeInfo, cells: seq<Cell>, a: int, hub: Addr, ls: seq<int>, i: nat, j: nat)
    requires |ls| > 1 && MultiArrayAt(types, cells, a, hub, ls) && i < j < ls[0]
    ensures cells[a].elems[i].Ref? && cells[a].elems[j].Ref? && cells[a].elems[i] != cells[a].elems[j]
    ensures var b := cells[a].elems[i].addr;
      b < |cells| && cells[b].hub == ComponentOf(types, hub) && |cells[b].elems| == ls[1]
  {
    var c := Count(ls[1..]);
    assert c >= 1;
    assert cells[a].elems[i] == Ref(a + 1 + i * c) && MultiArrayAt(types, cells, a + 1 + i * c, ComponentOf(types, hub), ls[1..]);
    assert cells[a].elems[j] == Ref(a + 1 + j * c);
    MulStep(i, c);
    assert i * c + c <= j * c by {
      MulNonneg(j - (i + 1), c);
      assert (j - (i + 1)) * c == j * c - (i + 1) * c;
    }
  }

  /** The index of the first negative length, if any. */
  function FirstNegative(ls: seq<int>, from: nat): (r: Option<nat>)
    requires from <= |ls|
    ensures r.None? <==> forall k :: from <= k < |ls| ==> ls[k] >= 0
    ensures r.Some? ==> from <= r.value < |ls| && ls[r.value] < 0 && forall k :: from <= k < r.value ==> ls[k] >= 0
    decreases |ls| - from
  {
    if from == |ls| then None
    else if ls[from] < 0 then Some(from)
    else FirstNegative(ls, from + 1)
  }

  /** The heap the runtime allocates in. */
  class JavaHeap {
    const types: TypeInfo
    var cells: seq<Cell>

    constructor (types: TypeInfo)
      ensures this.types == types && cells == []
    {
      this.types := types;
      cells := [];
    }

    /** The heap's array creation: a fresh cell at the end of the heap. */
    method CreateArray(hub: Addr, length: nat) returns (a: Addr)
      requires hub in types.hubs
      modifies this
      ensures a == old(|cells|) && cells == old(cells) + [NewArrayCell(types, hub, length)]
    {
      a := |cells|;
      cells := cells + [NewArrayCell(types, hub, length)];
    }

    /** A reference store into an array the runtime itself created (no store check). */
    method SafeArrayStore(arrayRef: Addr, index: nat, value: Value)
      requires arrayRef < |cells| && index < |cells[arrayRef].elems|
      modifies this
      ensures cells == old(cells)[arrayRef := old(cells)[arrayRef].(elems := old(cells)[arrayRef].elems[index := value])]
    {
      cells := cells[arrayRef := cells[arrayRef].(elems := cells[arrayRef].elems[index := value])];
    }

    /** `allocatePrimitiveArray`: a negative length throws with the length in the message. */
    method AllocatePrimitiveArray(hub: Addr, length: Int32) returns (r: Result<Addr, Throwable>)
      requires hub in types.hubs
      modifies this
      ensures length < 0 ==> r == Failure(NegativeArraySizeException(Some(length))) && cells == old(cells)
      ensures length >= 0 ==> r == Success(old(|cells|)) && cells == old(cells) + [NewArrayCell(types, hub, length)]
    {
      if length < 0 {
        return Failure(NegativeArraySizeException(Some(length)));
      }
      var a := CreateArray(hub, length);
      r := Success(a);
    }

    /** `allocateObjectArray`: as for primitive arrays; the new elements are null. */
    method AllocateObjectArray(hub: Addr, length: Int32) returns (r: Result<Addr, Throwable>)
      requires hub in types.hubs && types.hubs[hub].elementKind == Object
      modifies this
      ensures length < 0 ==> r == Failure(NegativeArraySizeException(Some(length))) && cells == old(cells)
      ensures length >= 0 ==> r == Success(old(|cells|)) && |cells| == old(|cells|) + 1
      ensures length >= 0 ==> cells[..old(|cells|)] == old(cells) && cells[r.value].hub == hub
      ensures length >= 0 ==> |cells[r.value].elems| == length && forall i :: 0 <= i < length ==> cells[r.value].elems[i] == Null
    {
      if length < 0 {
        return Failure(NegativeArraySizeException(Some(length)));
      }
      var a := CreateArray(hub, length);
      r := Success(a);
    }

    /** `allocateObject`: a fresh tuple cell with the hub. */
    method AllocateObject(hub: Addr) returns (a: Addr)
      modifies this
      ensures a == old(|cells|) && cells == old(cells) + [Cell(hub, [])]
    {
      a := |cells|;
      cells := cells + [Cell(hub, [])];
    }

    /** `allocateHybrid`: a fresh hybrid cell with the hub. */
    method AllocateHybrid(hub: Addr) returns (a: Addr)
      modifies this
      ensures a == old(|cells|) && cells == old(cells) + [Cell(hub, [])]
    {
      a := |cells|;
      cells := cells + [Cell(hub, [])];
    }

    /** `allocateMultiArray1`: a one-dimensional array of a multi-array site. */
    method AllocateMultiArray1(hub: Addr, l1: Int32) returns (r: Result<Addr, Throwable>)
      requires hub in types.hubs
      modifies this
      ensures l1 < 0 ==> r == Failure(NegativeArraySizeException(Some(l1))) && cells == old(cells)
      ensures l1 >= 0 ==> r == Success(old(|cells|)) && |cells| == old(|cells|) + Count([l1])
      ensures l1 >= 0 ==> cells[..old(|cells|)] == old(cells) && MultiArrayAt(types, cells, r.value, hub, [l1])
    {
      if l1 < 0 {
        return Failure(NegativeArraySizeException(Some(l1)));
      }
      var a := CreateArray(hub, l1);
      r := Success(a);
    }

    /** `allocateMultiArray2`: an array of `l1` arrays of `l2` elements; a negative length throws with no length. */
    method AllocateMultiArray2(hub1: Addr, l1: Int32, l2: Int32) returns (r: Result<Addr, Throwable>)
      requires ArrayHubChain(types, hub1, 2)
      modifies this
      ensures (l1 < 0 || l2 < 0) ==> r == Failure(NegativeArraySizeException(None)) && cells == old(cells)
      ensures !(l1 < 0 || l2 < 0) ==> r == Success(old(|cells|)) && |cells| == old(|cells|) + Count([l1, l2])
      ensures !(l1 < 0 || l2 < 0) ==> cells[..old(|cells|)] == old(cells) && MultiArrayAt(types, cells, r.value, hub1, [l1, l2])
    {
      if l1 < 0 || l2 < 0 {
        return Failure(NegativeArraySizeException(None));
      }
      var result := CreateArray(hub1, l1);
      var hub2 := ComponentOf(types, hub1);
      assert [l1, l2][1..] == [l2];
      for i1 := 0 to l1
        invariant |cells| == result + 1 + i1
        invariant cells[..result] == old(cells)
        invariant cells[result].hub == hub1 && |cells[result].elems| == l1
        invariant SubArraysAt(types, cells, result, hub1, [l1, l2], i1)
      {
        ghost var before := cells;
        var sub := CreateArray(hub2, l2);
        assert MultiArrayAt(types, cells, sub, hub2, [l2]);
        ghost var mid := cells;
        SafeArrayStore(result, i1, Ref(sub));
        MultiArrayFrame(types, mid, cells, result + 1, sub, hub2, [l2]);
        SubArraysExtend(types, before, cells, result, hub1, [l1, l2], i1);
      }
      r := Success(result);
    }

    /**
     * The inner loop of `allocateMultiArray3`: each element of the array just
     * created at `outer` receives a fresh array of `l3` default elements.
     */
    method FillWithArrays(outer: Addr, hub2: Addr, l2: nat, l3: nat)
      requires ArrayHubChain(types, hub2, 2)
      requires |cells| == outer + 1 && cells[outer].hub == hub2 && |cells[outer].elems| == l2
      modifies this
      ensures |cells| == outer + 1 + l2 && cells[..outer] == old(cells[..outer])
      ensures MultiArrayAt(types, cells, outer, hub2, [l2, l3])
    {
      var hub3 := ComponentOf(types, hub2);
      assert [l2, l3][1..] == [l3];
      for i2 := 0 to l2
        invariant |cells| == outer + 1 + i2
        invariant cells[..outer] == old(cells[..outer])
        invariant cells[outer].hub == hub2 && |cells[outer].elems| == l2
        invariant SubArraysAt(types, cells, outer, hub2, [l2, l3], i2)
      {
        ghost var before := cells;
        var sub := CreateArray(hub3, l3);
        assert MultiArrayAt(types, cells, sub, hub3, [l3]);
        ghost var mid := cells;
        SafeArrayStore(outer, i2, Ref(sub));
        MultiArrayFrame(types, mid, cells, outer + 1, sub, hub3, [l3]);
        SubArraysExtend(types, before, cells, outer, hub2, [l2, l3], i2);
      }
    }

    /** `allocateMultiArray3`: three nested levels built with two nested loops; a negative length throws with no length. */
    method AllocateMultiArray3(hub1: Addr, l1: Int32, l2: Int32, l3: Int32) returns (r: Result<Addr, Throwable>)
      requires ArrayHubChain(types, hub1, 3)
      modifies this
      ensures (l1 < 0 || l2 < 0 || l3 < 0) ==> r == Failure(NegativeArraySizeException(None)) && cells == old(cells)
      ensures !(l1 < 0 || l2 < 0 || l3 < 0) ==> r == Success(old(|cells|)) && |cells| == old(|cells|) + Count([l1, l2, l3])
      ensures !(l1 < 0 || l2 < 0 || l3 < 0) ==>
        cells[..old(|cells|)] == old(cells) && MultiArrayAt(types, cells, r.value, hub1, [l1, l2, l3])
    {
      if l1 < 0 || l2 < 0 || l3 < 0 {
        return Failure(NegativeArraySizeException(None));
      }
      var result := CreateArray(hub1, l1);
      var hub2 := ComponentOf(types, hub1);
      var hub3 := ComponentOf(types, hub2);
      assert [l1, l2, l3][1..] == [l2, l3];
      assert [l2, l3][1..] == [l3];
      ghost var c := Count([l2, l3]);
      assert c == 1 + l2;
      for i1 := 0 to l1
        invariant |cells| == result + 1 + i1 * c
        invariant cells[..result] == old(cells)
        invariant cells[result].hub == hub1 && |cells[result].elems| == l1
        invariant SubArraysAt(types, cells, result, hub1, [l1, l2, l3], i1)
      {
        ghost var before := cells;
        var result2 := CreateArray(hub2, l2);
        SafeArrayStore(result, i1, Ref(result2));
        FillWithArrays(result2, hub2, l2, l3);
        SubArraysExtend(types, before, cells, result, hub1, [l1, l2, l3], i1);
        MulStep(i1, c);
      }
      r := Success(result);
    }

    /**
     * `recursiveNewMultiArray`: the array of `lengths[index]` elements, whose
     * elements are filled with sub-arrays only when it has elements and a
     * further dimension exists.
     */
    method RecursiveNewMultiArray(index: nat, hub: Addr, lengths: seq<Int32>) returns (a: Addr)
      requires index < |lengths|
      requires forall k :: index <= k < |lengths| ==> lengths[k] >= 0
      requires ArrayHubChain(types, hub, |lengths| - index)
      modifies this
      ensures a == old(|cells|) && |cells| == old(|cells|) + Count(lengths[index..])
      ensures cells[..old(|cells|)] == old(cells)
      ensures MultiArrayAt(types, cells, a, hub, lengths[index..])
      decreases |lengths| - index
    {
      var length := lengths[index];
      a := CreateArray(hub, length);
      ghost var ls := lengths[index..];
      if length > 0 {
        var nextIndex := index + 1;
        if nextIndex < |lengths| {
          var sub := ComponentOf(types, hub);
          assert ls[1..] == lengths[nextIndex..];
          ghost var c := Count(lengths[nextIndex..]);
          for i := 0 to length
            invariant |cells| == a + 1 + i * c
            invariant cells[..a] == old(cells)
            invariant cells[a].hub == hub && |cells[a].elems| == length
            invariant SubArraysAt(types, cells, a, hub, ls, i)
          {
            ghost var before := cells;
            var child := RecursiveNewMultiArray(nextIndex, sub, lengths);
            ghost var mid := cells;
            SafeArrayStore(a, i, Ref(child));
            MultiArrayFrame(types, mid, cells, a + 1, child, sub, ls[1..]);
            SubArraysExtend(types, before, cells, a, hub, ls, i);
            MulStep(i, c);
          }
        }
      }
    }

    /**
     * `allocateMultiArrayN`: every length is checked before the class is
     * resolved (the first negative one is reported); then the arrays are
     * built recursively. `resolution` is what resolving the site's class
     * yields.
     */
    method AllocateMultiArrayN(resolution: Result<Addr, Throwable>, lengths: seq<Int32>) returns (r: Result<Addr, Throwable>)
      requires |lengths| > 0
      requires resolution.Success? ==> ArrayHubChain(types, resolution.value, |lengths|)
      modifies this
      ensures FirstNegative(lengths, 0).Some? ==>
        r == Failure(NegativeArraySizeException(Some(lengths[FirstNegative(lengths, 0).value]))) && cells == old(cells)
      ensures FirstNegative(lengths, 0).None? && resolution.Failure? ==> r == Failure(resolution.error) && cells == old(cells)
      ensures FirstNegative(lengths, 0).None? && resolution.Success? ==>
        && r == Success(old(|cells|)) && |cells| == old(|cells|) + Count(lengths)
        && cells[..old(|cells|)] == old(cells) && MultiArrayAt(types, cells, r.value, resolution.value, lengths)
    {
      for k := 0 to |lengths|
        invariant forall j :: 0 <= j < k ==> lengths[j] >= 0
      {
        if lengths[k] < 0 {
          return Failure(NegativeArraySizeException(Some(lengths[k])));
        }
      }
      if resolution.Failure? {
        return Failure(resolution.error);
      }
      assert lengths[0..] == lengths;
      var a := RecursiveNewMultiArray(0, resolution.value, lengths);
      r := Success(a);
    }
  }
}
