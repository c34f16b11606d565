/**
 * TLAB (thread-local allocation buffer) allocation as the allocation
 * templates perform it: the array size computation with its alignment, the
 * bump of the TLAB mark with a fall-back to the runtime's slow path, the
 * optional allocation log of debug builds, and the formatting of the new cell
 * (its hub, and its length or hybrid first-word index).
 */
module TlabAllocation {
  import opened Wrappers
  import opened Kinds
  import opened ObjectModel

  // ----- bitwise masks on non-negative numbers -----

  function Pow2(k: nat): (p: nat)
    ensures p >= 1
  {
    if k == 0 then 1 else 2 * Pow2(k - 1)
  }

  /** Bitwise `x & y` of non-negative numbers. */
  function BitAnd(x: nat, y: nat): nat
  {
    if x == 0 || y == 0 then 0
    else 2 * BitAnd(x / 2, y / 2) + (if x % 2 == 1 && y % 2 == 1 then 1 else 0)
  }

  /** Bitwise `x & ~y` of non-negative numbers. */
  function BitAndNot(x: nat, y: nat): nat
  {
    if x == 0 then 0
    else 2 * BitAndNot(x / 2, y / 2) + (if x % 2 == 1 && y % 2 == 0 then 1 else 0)
  }

  lemma MulAtLeast(x: int, w: int)
    requires x >= 1 && w > 0
    ensures x * w >= w
  {
  }

  /** Euclidean division is unique. */
  lemma DivModUnique(x: int, d: int, q: int, r: int)
    requires d > 0 && x == q * d + r && 0 <= r < d
    ensures x % d == r && x / d == q
  {
    var q' := x / d;
    var r' := x % d;
    assert (q' - q) * d == r - r';
    if q' > q { MulAtLeast(q' - q, d); }
    if q' < q { MulAtLeast(q - q', d); }
  }

  lemma ModDouble(x: nat, p: nat)
    requires p > 0
    ensures x % (2 * p) == 2 * ((x / 2) % p) + x % 2
  {
    var h := x / 2;
    var s := h / p;
    var t := h % p;
    assert x == 2 * h + x % 2;
    assert h == s * p + t;
    assert x == s * (2 * p) + (2 * t + x % 2);
    DivModUnique(x, 2 * p, s, 2 * t + x % 2);
  }

  /** The mask `2^k - 1` is odd, and halving it gives the next smaller mask. */
  lemma HalveLowMask(k: nat)
    requires k > 0
    ensures (Pow2(k) - 1) / 2 == Pow2(k - 1) - 1 && (Pow2(k) - 1) % 2 == 1
  {
    DivModUnique(Pow2(k) - 1, 2, Pow2(k - 1) - 1, 1);
  }

  /** Masking with `2^k - 1` keeps the remainder modulo `2^k`. */
  lemma {:induction false} BitAndLowMask(x: nat, k: nat)
    ensures BitAnd(x, Pow2(k) - 1) == x % Pow2(k)
  {
    if k == 0 {
      DivModUnique(x, 1, x, 0);
    } else if x == 0 {
      DivModUnique(0, Pow2(k), 0, 0);
    } else {
      var p := Pow2(k - 1);
      HalveLowMask(k);
      calc {
        BitAnd(x, Pow2(k) - 1);
        2 * BitAnd(x / 2, p - 1) + x % 2;
        { BitAndLowMask(x / 2, k - 1); }
        2 * ((x / 2) % p) + x % 2;
        { ModDouble(x, p); }
        x % (2 * p);
      }
    }
  }

  lemma {:induction false} BitAndNotZero(x: nat)
    ensures BitAndNot(x, 0) == x
  {
    if x > 0 {
      BitAndNotZero(x / 2);
    }
  }

  /** Masking with `~(2^k - 1)` rounds down to a multiple of `2^k`. */
  lemma {:induction false} BitAndNotLowMask(x: nat, k: nat)
    ensures BitAndNot(x, Pow2(k) - 1) == x - x % Pow2(k)
  {
    if k == 0 {
      BitAndNotZero(x);
    } else if x == 0 {
    } else {
      var p := Pow2(k - 1);
      HalveLowMask(k);
      BitAndNotLowMask(x / 2, k - 1);
      ModDouble(x, p);
    }
  }

  // ----- array size -----

  function ObjectAlignment(layout: Layout): nat
  {
    Pow2(layout.alignmentLog2)
  }

  /** Header plus elements, before alignment. */
  function RawArraySize(layout: Layout, length: nat, elemSize: nat): int
  {
    layout.arrayHeaderSize + length * elemSize
  }

  /**
   * The size of a new array as the allocation templates compute it. On ARMv7
   * the unaligned size is tested first and rounded only when needed; elsewhere
   * the size is rounded by adding the mask and clearing the low bits, except
   * that an element size equal to the alignment needs no rounding. The size
   * holds the header and the elements, wastes less than one alignment unit,
   * and is aligned on every path except that last one (whose sum is aligned
   * when the header is, by AlignedElementsNeedNoRounding).
   */
  function AlignArraySize(arch: Arch, layout: Layout, length: nat, elemSize: nat): (size: int)
    requires layout.arrayHeaderSize >= 0
    ensures RawArraySize(layout, length, elemSize) <= size < RawArraySize(layout, length, elemSize) + ObjectAlignment(layout)
    ensures size % ObjectAlignment(layout) == 0 || (arch != ARMv7 && elemSize == ObjectAlignment(layout))
  {
    var mask := ObjectAlignment(layout) - 1;
    var raw := RawArraySize(layout, length, elemSize);
    MaskPathIsLeastMultiple(layout, length, elemSize);
    BitAndLowMask(raw, layout.alignmentLog2);
    if arch == ARMv7 then
      if BitAnd(raw, mask) == 0 then raw
      else BitAndNot(layout.arrayHeaderSize + mask + length * elemSize, mask)
    else if elemSize == ObjectAlignment(layout) then raw
    else BitAndNot(layout.arrayHeaderSize + mask + length * elemSize, mask)
  }

  /** `size` is the least multiple of `alignment` that is at least `raw`. */
  predicate LeastAlignedAtLeast(size: int, raw: int, alignment: nat)
    requires alignment > 0
  {
    size % alignment == 0 && raw <= size < raw + alignment
  }

  lemma RoundUpByMask(raw: nat, k: nat)
    ensures LeastAlignedAtLeast(BitAndNot(raw + (Pow2(k) - 1), Pow2(k) - 1), raw, Pow2(k))
  {
    var a := Pow2(k);
    var y := raw + (a - 1);
    var q, r := y / a, y % a;
    assert y == q * a + r && 0 <= r < a;
    BitAndNotLowMask(y, k);
    assert BitAndNot(y, a - 1) == q * a;
    DivModUnique(q * a, a, q, 0);
  }

  /** Adding the mask and clearing the low bits gives the least aligned size at least `raw`. */
  lemma MaskPathIsLeastMultiple(layout: Layout, length: nat, elemSize: nat)
    requires layout.arrayHeaderSize >= 0
    ensures var mask := ObjectAlignment(layout) - 1;
      LeastAlignedAtLeast(BitAndNot(layout.arrayHeaderSize + mask + length * elemSize, mask),
                          RawArraySize(layout, length, elemSize), ObjectAlignment(layout))
  {
    var raw: nat := RawArraySize(layout, length, elemSize);
    assert layout.arrayHeaderSize + (ObjectAlignment(layout) - 1) + length * elemSize == raw + (ObjectAlignment(layout) - 1);
    RoundUpByMask(raw, layout.alignmentLog2);
  }

  /** With an aligned header and elements as large as the alignment, the unrounded size is already aligned. */
  lemma AlignedElementsNeedNoRounding(layout: Layout, length: nat)
    requires layout.arrayHeaderSize >= 0 && layout.arrayHeaderSize % ObjectAlignment(layout) == 0
    ensures RawArraySize(layout, length, ObjectAlignment(layout)) % ObjectAlignment(layout) == 0
  {
    var a := ObjectAlignment(layout);
    var h := layout.arrayHeaderSize / a;
    assert layout.arrayHeaderSize == h * a;
    assert RawArraySize(layout, length, a) == (h + length) * a + 0;
    DivModUnique(RawArraySize(layout, length, a), a, h + length, 0);
  }

  /**
   * With a power-of-two alignment and an aligned header, every path of the
   * size computation yields the least aligned size that holds the header and
   * the elements; with an element size equal to the alignment the rounding is
   * skipped because the sum is already aligned.
   */
  lemma AlignedSizeIsLeastMultiple(arch: Arch, layout: Layout, length: nat, elemSize: nat)
    requires layout.arrayHeaderSize >= 0 && layout.arrayHeaderSize % ObjectAlignment(layout) == 0
    ensures LeastAlignedAtLeast(AlignArraySize(arch, layout, length, elemSize),
                                RawArraySize(layout, length, elemSize), ObjectAlignment(layout))
  {
    var raw: nat := RawArraySize(layout, length, elemSize);
    if arch == ARMv7 {
      BitAndLowMask(raw, layout.alignmentLog2);
      if BitAnd(raw, ObjectAlignment(layout) - 1) != 0 {
        MaskPathIsLeastMultiple(layout, length, elemSize);
      }
    } else if elemSize == ObjectAlignment(layout) {
      AlignedElementsNeedNoRounding(layout, length);
    } else {
      MaskPathIsLeastMultiple(layout, length, elemSize);
    }
  }

  lemma AlignedSizesAgree(s1: int, s2: int, raw: int, a: nat)
    requires a > 0 && LeastAlignedAtLeast(s1, raw, a) && LeastAlignedAtLeast(s2, raw, a)
    ensures s1 == s2
  {
    var q1 := s1 / a;
    var q2 := s2 / a;
    assert s1 == q1 * a && s2 == q2 * a;
    if q1 > q2 { MulAtLeast(q1 - q2, a); }
    if q1 < q2 { MulAtLeast(q2 - q1, a); }
  }

  /** The ARMv7 path (test first, then round) and the mask path of other targets compute the same size. */
  lemma ArmAndGenericPathsAgree(arch: Arch, layout: Layout, length: nat, elemSize: nat)
    requires layout.arrayHeaderSize >= 0 && layout.arrayHeaderSize % ObjectAlignment(layout) == 0
    ensures AlignArraySize(ARMv7, layout, length, elemSize) == AlignArraySize(arch, layout, length, elemSize)
  {
    AlignedSizeIsLeastMultiple(ARMv7, layout, length, elemSize);
    AlignedSizeIsLeastMultiple(arch, layout, length, elemSize);
    AlignedSizesAgree(AlignArraySize(ARMv7, layout, length, elemSize), AlignArraySize(arch, layout, length, elemSize),
                      RawArraySize(layout, length, elemSize), ObjectAlignment(layout));
  }

  /**
   * The array size lives in a 32-bit int temp. Whenever the header, the
   * elements and the alignment mask together stay below 2^31, every value the
   * size computation forms (the raw size, the raw size plus the mask, and the
   * aligned size) is an int, so the unbounded computation is the template's.
   */
  lemma ArraySizeFitsInt(arch: Arch, layout: Layout, length: nat, elemSize: nat)
    requires layout.arrayHeaderSize >= 0 && layout.arrayHeaderSize % ObjectAlignment(layout) == 0
    requires RawArraySize(layout, length, elemSize) + ObjectAlignment(layout) - 1 < 0x8000_0000
    ensures 0 <= RawArraySize(layout, length, elemSize) <= AlignArraySize(arch, layout, length, elemSize) < 0x8000_0000
  {
    AlignedSizeIsLeastMultiple(arch, layout, length, elemSize);
  }

  // ----- the TLAB and its log -----

  /** The thread's TLAB words and the memory the templates write (cell headers, log records), by address. */
  datatype TlabState = TlabState(mark: int, end: int, logTail: int, memory: map<int, int>)

  function Load(memory: map<int, int>, addr: int): int
  {
    if addr in memory then memory[addr] else 0
  }

  /**
   * The debug-build allocation log. A zero log tail means no log. When the
   * word at the tail equals the tail the log is full and the runtime's
   * `flushLog` supplies a fresh tail (`flushedTail`). The record (allocation
   * site, cell, size) is written at the tail, which then moves three words on.
   */
  function Logged(s: TlabState, wordSize: nat, site: int, cell: int, size: int, flushedTail: int): (t: TlabState)
    ensures t.mark == s.mark && t.end == s.end
    ensures s.logTail == 0 ==> t == s
    ensures s.logTail != 0 && wordSize > 0 ==>
      var start := if Load(s.memory, s.logTail) == s.logTail then flushedTail else s.logTail;
      && t.logTail == start + 3 * wordSize
      && Load(t.memory, start) == site
      && Load(t.memory, start + wordSize) == cell
      && Load(t.memory, start + 2 * wordSize) == size
      && (forall a :: a != start && a != start + wordSize && a != start + 2 * wordSize ==> Load(t.memory, a) == Load(s.memory, a))
  {
    if s.logTail == 0 then s
    else
      var start := if Load(s.memory, s.logTail) == s.logTail then flushedTail else s.logTail;
      s.(memory := s.memory[start := site][start + wordSize := cell][start + 2 * wordSize := size],
         logTail := start + 3 * wordSize)
  }

  /**
   * The bump: `newMark = mark + size`; when `newMark <= end` the mark is
   * advanced and the cell is the old mark (and a debug build logs it);
   * otherwise the cell is the runtime slow path's (`slowCell`) and the
   * template writes nothing.
   */
  function Bumped(s: TlabState, size: int, slowCell: int, debug: bool, wordSize: nat, site: int, flushedTail: int): (r: (TlabState, int))
    ensures r.0.end == s.end
    ensures s.mark + size <= s.end ==> r.1 == s.mark && r.0.mark == s.mark + size
    ensures s.mark + size <= s.end && !debug ==> r.0 == s.(mark := s.mark + size)
    ensures s.mark + size > s.end ==> r.1 == slowCell && r.0 == s
  {
    var newMark := s.mark + size;
    if newMark <= s.end then
      var t := s.(mark := newMark);
      (if debug then Logged(t, wordSize, site, s.mark, size, flushedTail) else t, s.mark)
    else (s, slowCell)
  }

  /** The cell is formatted: its hub word is written, and its length word when there is one. */
  function Formatted(memory: map<int, int>, layout: Layout, cell: int, hub: int, lengthField: Option<int>): (m: map<int, int>)
    ensures Load(m, cell + layout.hubOffset) == hub || (lengthField.Some? && layout.arrayLengthOffset == layout.hubOffset)
    ensures lengthField.Some? ==> Load(m, cell + layout.arrayLengthOffset) == lengthField.value
    ensures forall a :: a != cell + layout.hubOffset && (lengthField.None? || a != cell + layout.arrayLengthOffset) ==>
      Load(m, a) == Load(memory, a)
  {
    var withHub := memory[cell + layout.hubOffset := hub];
    match lengthField
    case None => withHub
    case Some(n) => withHub[cell + layout.arrayLengthOffset := n]
  }

  /** A tuple allocation: bump, then format; a hybrid's length word holds the hub's first word index. */
  function TupleAllocation(s: TlabState, layout: Layout, debug: bool, isHybrid: bool, hub: int, tupleSize: int,
                           slowCell: int, site: int, flushedTail: int): (r: (TlabState, int))
    ensures var b := Bumped(s, tupleSize, slowCell, debug, layout.wordSize, site, flushedTail);
      && r.1 == b.1
      && r.0 == b.0.(memory := Formatted(b.0.memory, layout, r.1, hub,
                                         if isHybrid then Some(layout.hubFirstWordIndex) else None))
  {
    var (t, cell) := Bumped(s, tupleSize, slowCell, debug, layout.wordSize, site, flushedTail);
    (t.(memory := Formatted(t.memory, layout, cell, hub, if isHybrid then Some(layout.hubFirstWordIndex) else None)), cell)
  }

  /**
   * An array allocation: a negative length throws before the TLAB is read;
   * otherwise the aligned size is bumped and the cell gets its hub and length.
   */
  function ArrayAllocation(s: TlabState, arch: Arch, layout: Layout, debug: bool, kind: Kind, hub: int, length: Int32,
                           slowCell: int, site: int, flushedTail: int): (r: Result<(TlabState, int), Throwable>)
    requires layout.arrayHeaderSize >= 0
    ensures length < 0 <==> r.Failure?
    ensures r.Failure? ==> r.error == NegativeArraySizeException(Some(length))
    ensures r.Success? ==>
      var b := Bumped(s, AlignArraySize(arch, layout, length, ElementSize(arch, kind)), slowCell, debug, layout.wordSize, site, flushedTail);
      && r.value.1 == b.1
      && r.value.0 == b.0.(memory := Formatted(b.0.memory, layout, b.1, hub, Some(length)))
  {
    if length < 0 then Failure(NegativeArraySizeException(Some(length)))
    else
      var size := AlignArraySize(arch, layout, length, ElementSize(arch, kind));
      var (t, cell) := Bumped(s, size, slowCell, debug, layout.wordSize, site, flushedTail);
      Success((t.(memory := Formatted(t.memory, layout, cell, hub, Some(length))), cell))
  }

  /** A fast-path bump keeps the mark inside the TLAB and hands out the cell `[old mark, new mark)`. */
  lemma BumpStaysInTlab(s: TlabState, size: nat, slowCell: int, debug: bool, wordSize: nat, site: int, flushedTail: int)
    requires s.mark <= s.end
    ensures var (t, cell) := Bumped(s, size, slowCell, debug, wordSize, site, flushedTail);
      && t.mark <= t.end
      && (s.mark + size <= s.end ==> s.mark <= cell && cell + size == t.mark <= s.end)
  {
  }

  /** Two fast-path allocations in a row get adjacent, non-overlapping cells. */
  lemma ConsecutiveCellsAdjacent(s: TlabState, size1: nat, size2: nat, slow1: int, slow2: int, debug: bool, wordSize: nat,
                                 site: int, flushedTail: int)
    requires s.mark + size1 + size2 <= s.end
    ensures var (t, cell1) := Bumped(s, size1, slow1, debug, wordSize, site, flushedTail);
      var (u, cell2) := Bumped(t, size2, slow2, debug, wordSize, site, flushedTail);
      cell1 + size1 == cell2 && u.mark == cell2 + size2
  {
  }

  /** A cell formatted by an allocation holds its hub and its length (or first word index) where the layout says. */
  lemma AllocatedCellFormatted(s: TlabState, arch: Arch, layout: Layout, debug: bool, kind: Kind, hub: int, length: Int32,
                               slowCell: int, site: int, flushedTail: int)
    requires layout.arrayHeaderSize >= 0 && layout.hubOffset != layout.arrayLengthOffset && length >= 0
    ensures var r := ArrayAllocation(s, arch, layout, debug, kind, hub, length, slowCell, site, flushedTail);
      && r.Success?
      && Load(r.value.0.memory, r.value.1 + layout.hubOffset) == hub
      && Load(r.value.0.memory, r.value.1 + layout.arrayLengthOffset) == length
  {
  }

  /** The TLAB of the current thread, as the allocation templates read and write it. */
  class Tlab {
    var mark: int
    var end: int
    var logTail: int
    var memory: map<int, int>
    const layout: Layout
    const debug: bool

    constructor (mark0: int, end0: int, logTail0: int, layout: Layout, debug: bool)
      ensures mark == mark0 && end == end0 && logTail == logTail0 && memory == map[]
      ensures this.layout == layout && this.debug == debug
    {
      mark := mark0;
      end := end0;
      logTail := logTail0;
      memory := map[];
      this.layout := layout;
      this.debug := debug;
    }

    function State(): TlabState
      reads this
    {
      TlabState(mark, end, logTail, memory)
    }

    /** The logging sequence of a debug build (the record of one allocation). */
    method LogAllocation(site: int, cell: int, size: int, flushedTail: int)
      modifies this
      ensures State() == Logged(old(State()), layout.wordSize, site, cell, size, flushedTail)
    {
      var tail := logTail;
      if tail == 0 {
        return;
      }
      var logEndMark := Load(memory, tail);
      if logEndMark == tail {
        tail := flushedTail;
      }
      memory := memory[tail := site];
      memory := memory[tail + layout.wordSize := cell];
      memory := memory[tail + 2 * layout.wordSize := size];
      tail := tail + 3 * layout.wordSize;
      logTail := tail;
    }

    /** The in-line variant of the bump: jump to `ok` when the new mark fits, else call the slow path. */
    method BumpInline(size: int, slowCell: int, site: int, flushedTail: int) returns (cell: int)
      modifies this
      ensures (State(), cell) == Bumped(old(State()), size, slowCell, debug, layout.wordSize, site, flushedTail)
    {
      cell := mark;
      var tlabEnd := end;
      var newMark := cell + size;
      if newMark <= tlabEnd {
        mark := newMark;
        if debug {
          LogAllocation(site, cell, size, flushedTail);
        }
      } else {
        cell := slowCell;
      }
    }

    /** The out-of-line variant of the bump: jump to the slow path when the new mark is past the end. */
    method BumpOutOfLine(size: int, slowCell: int, site: int, flushedTail: int) returns (cell: int)
      modifies this
      ensures (State(), cell) == Bumped(old(State()), size, slowCell, debug, layout.wordSize, site, flushedTail)
    {
      cell := mark;
      var tlabEnd := end;
      var newMark := cell + size;
      if newMark > tlabEnd {
        cell := slowCell;
        return;
      }
      mark := newMark;
      if debug {
        LogAllocation(site, cell, size, flushedTail);
      }
    }

    /** Plants the hub, and the length word when given, in the new cell. */
    method FormatCell(cell: int, hub: int, lengthField: Option<int>)
      modifies this
      ensures State() == old(State()).(memory := Formatted(old(memory), layout, cell, hub, lengthField))
    {
      memory := memory[cell + layout.hubOffset := hub];
      if lengthField.Some? {
        memory := memory[cell + layout.arrayLengthOffset := lengthField.value];
      }
    }

    /** A tuple or hybrid allocation, in-line or out-of-line. */
    method AllocateTuple(outOfLine: bool, isHybrid: bool, hub: int, tupleSize: int, slowCell: int, site: int, flushedTail: int)
      returns (cell: int)
      modifies this
      ensures (State(), cell) == TupleAllocation(old(State()), layout, debug, isHybrid, hub, tupleSize, slowCell, site, flushedTail)
    {
      if outOfLine {
        cell := BumpOutOfLine(tupleSize, slowCell, site, flushedTail);
      } else {
        cell := BumpInline(tupleSize, slowCell, site, flushedTail);
      }
      FormatCell(cell, hub, if isHybrid then Some(layout.hubFirstWordIndex) else None);
    }

    /** An array allocation, in-line or out-of-line; a negative length leaves the TLAB untouched. */
    method AllocateArray(outOfLine: bool, arch: Arch, kind: Kind, hub: int, length: Int32, slowCell: int, site: int, flushedTail: int)
      returns (r: Result<int, Throwable>)
      requires layout.arrayHeaderSize >= 0
      modifies this
      ensures r.Failure? ==> unchanged(this)
      ensures ArrayAllocation(old(State()), arch, layout, debug, kind, hub, length, slowCell, site, flushedTail)
           == (if r.Success? then Success((State(), r.value)) else Failure(r.error))
    {
      if length < 0 {
        return Failure(NegativeArraySizeException(Some(length)));
      }
      var arraySize := AlignArraySize(arch, layout, length, ElementSize(arch, kind));
      var cell;
      if outOfLine {
        cell := BumpOutOfLine(arraySize, slowCell, site, flushedTail);
      } else {
        cell := BumpInline(arraySize, slowCell, site, flushedTail);
      }
      FormatCell(cell, hub, Some(length));
      r := Success(cell);
    }
  }
}
