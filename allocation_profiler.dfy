/**
 * The bookkeeping of the allocation profiler: a buffer of records for the
 * objects allocated in the current profiling cycle, two survivor buffers used
 * alternately by the parity of the cycle, size and id counters, the warm-up
 * predicates that decide when profiling starts, and the re-entrant lock that
 * makes one recording atomic. The heap's survivor test and forwarding, and the
 * NUMA node lookup, are parameters.
 */
module AllocationProfiling {
  import opened Wrappers

  // ----- Java int arithmetic -----

  const INT_RANGE: int := 0x1_0000_0000
  const MIN_INT: int := -0x8000_0000

  predicate IsInt(x: int)
  {
    MIN_INT <= x < MIN_INT + INT_RANGE
  }

  /** A Java int result: the exact value brought into the 32-bit two's-complement range by whole turns of 2^32. */
  function Wrap32(x: int): (r: int)
    ensures IsInt(r)
    ensures IsInt(x) ==> r == x
    decreases if x < MIN_INT then MIN_INT - x else if x >= MIN_INT + INT_RANGE then x - MIN_INT - INT_RANGE + 1 else 0
  {
    if x < MIN_INT then Wrap32(x + INT_RANGE)
    else if x >= MIN_INT + INT_RANGE then Wrap32(x - INT_RANGE)
    else x
  }

  /** A whole turn of 2^32 does not change a Java int. */
  lemma WrapTurn(x: int)
    ensures Wrap32(x + INT_RANGE) == Wrap32(x) && Wrap32(x - INT_RANGE) == Wrap32(x)
  {
  }

  /** Adding to a wrapped value wraps the exact sum: a running Java int total is the wrapped exact total. */
  lemma {:induction false} Wrap32Add(x: int, y: int)
    ensures Wrap32(Wrap32(x) + y) == Wrap32(x + y)
    decreases if x < MIN_INT then MIN_INT - x else if x >= MIN_INT + INT_RANGE then x - MIN_INT - INT_RANGE + 1 else 0
  {
    if x < MIN_INT {
      Wrap32Add(x + INT_RANGE, y);
      WrapTurn(x + y);
    } else if x >= MIN_INT + INT_RANGE {
      Wrap32Add(x - INT_RANGE, y);
      WrapTurn(x + y);
    }
  }

  /** A Java int. */
  type Int32 = x: int | IsInt(x)

  /** Java's `+` on ints: the exact sum, less or more one turn of 2^32 when it leaves the range. */
  function JavaAdd(a: Int32, b: Int32): (r: Int32)
    ensures IsInt(a + b) ==> r == a + b
  {
    assert IsInt(a) && IsInt(b);
    var sum: int := a + b;
    if sum < MIN_INT then sum + INT_RANGE
    else if sum >= MIN_INT + INT_RANGE then sum - INT_RANGE
    else sum
  }

  /** Java's `+` is the wrapped exact sum. */
  lemma JavaAddWraps(a: Int32, b: Int32)
    ensures JavaAdd(a, b) == Wrap32(a + b)
  {
  }

  /** Adding one flips parity, also across the wrap, so the cycle counter alternates between even and odd. */
  lemma JavaIncrementFlipsParity(c: Int32)
    ensures (JavaAdd(c, 1) % 2 == 0) <==> (c % 2 != 0)
  {
  }

  // ----- records and record buffers -----

  /** One profiled object: its id, allocating thread, type name, size, address and (once known) NUMA node. */
  datatype Record = Record(id: Int32, threadId: int, typeName: string, size: Int32, address: int, node: Option<int>)

  /** A record buffer: records are appended up to a fixed capacity and dropped all at once. */
  class RecordBuffer {
    const bufferSize: int
    var records: seq<Record>

    constructor(size: int)
      ensures bufferSize == size && records == []
    {
      bufferSize := size;
      records := [];
    }

    /** The index the next record goes to. */
    function CurrentIndex(): int
      reads this
    {
      |records|
    }

    /** Appends one record; callers guard against overflow first. */
    method Append(r: Record)
      requires |records| < bufferSize
      modifies this
      ensures records == old(records) + [r]
    {
      records := records + [r];
    }

    method ResetBuffer()
      modifies this
      ensures records == []
    {
      records := [];
    }
  }

  // ----- buffer sizing -----

  const MINIMUM_BUFFER_SIZE: int := 500000

  /**
   * The size of each buffer for the buffer-size option: the minimum when the
   * option is unset (0) or below the minimum, the option's value otherwise.
   */
  function BufferSize(option: int): (n: int)
    ensures n >= MINIMUM_BUFFER_SIZE && n >= option
    ensures n == MINIMUM_BUFFER_SIZE || n == option
  {
    if option != 0 then
      if option < MINIMUM_BUFFER_SIZE then MINIMUM_BUFFER_SIZE else option
    else MINIMUM_BUFFER_SIZE
  }

  // ----- survivors -----

  /** A record of an object that survived, moved to `newAddr` on node `node`. */
  function Moved(r: Record, newAddr: int, node: int): Record
  {
    r.(address := newAddr, node := Some(node))
  }

  /**
   * The records `storeSurvivors` writes for `from`, in order: one per record
   * whose object survived, carrying the forwarded address and its node.
   */
  function Survivors(from: seq<Record>, isSurvivor: int -> bool, forward: int -> int, findNode: int -> int): seq<Record>
  {
    if |from| == 0 then []
    else
      var last := from[|from| - 1];
      Survivors(from[..|from| - 1], isSurvivor, forward, findNode)
        + (if isSurvivor(last.address) then [Moved(last, forward(last.address), findNode(forward(last.address)))] else [])
  }

  function SumSizes(rs: seq<Record>): int
  {
    if |rs| == 0 then 0 else SumSizes(rs[..|rs| - 1]) + rs[|rs| - 1].size
  }

  lemma {:induction false} SumSizesAppend(a: seq<Record>, b: seq<Record>)
    ensures SumSizes(a + b) == SumSizes(a) + SumSizes(b)
    decreases |b|
  {
    if |b| > 0 {
      assert (a + b)[..|a + b| - 1] == a + b[..|b| - 1];
      SumSizesAppend(a, b[..|b| - 1]);
    } else {
      assert a + b == a;
    }
  }

  /** A Java int total with the sizes of `rs` added one by one. */
  function AddSizes(total: Int32, rs: seq<Record>): Int32
  {
    if |rs| == 0 then total else JavaAdd(AddSizes(total, rs[..|rs| - 1]), rs[|rs| - 1].size)
  }

  /** Adding sizes one by one in Java int arithmetic gives the exact sum, wrapped. */
  lemma {:induction false} AddSizesIsWrappedSum(total: Int32, rs: seq<Record>)
    ensures AddSizes(total, rs) == Wrap32(total + SumSizes(rs))
  {
    if |rs| > 0 {
      var init := rs[..|rs| - 1];
      AddSizesIsWrappedSum(total, init);
      JavaAddWraps(AddSizes(total, init), rs[|rs| - 1].size);
      Wrap32Add(total + SumSizes(init), rs[|rs| - 1].size);
    }
  }

  /** Adding two runs of sizes in turn is adding their concatenation. */
  lemma {:induction false} AddSizesAppend(total: Int32, a: seq<Record>, b: seq<Record>)
    ensures AddSizes(AddSizes(total, a), b) == AddSizes(total, a + b)
    decreases |b|
  {
    if |b| > 0 {
      assert (a + b)[..|a + b| - 1] == a + b[..|b| - 1];
      AddSizesAppend(total, a, b[..|b| - 1]);
    } else {
      assert a + b == a;
    }
  }

  /** One more record adds its size to the total. */
  lemma AddSizesSnoc(total: Int32, rs: seq<Record>, r: Record)
    ensures AddSizes(total, rs + [r]) == JavaAdd(AddSizes(total, rs), r.size)
  {
    assert (rs + [r])[..|rs|] == rs;
  }

  /**
   * Every record written is the image of a surviving record of `from`, with id,
   * thread, type and size kept; and every surviving record of `from` has one.
   */
  lemma {:induction false} SurvivorsAreMovedRecords(from: seq<Record>, isSurvivor: int -> bool, forward: int -> int, findNode: int -> int)
    ensures |Survivors(from, isSurvivor, forward, findNode)| <= |from|
    ensures forall s :: s in Survivors(from, isSurvivor, forward, findNode) ==>
      exists r :: r in from && isSurvivor(r.address)
        && s == Moved(r, forward(r.address), findNode(forward(r.address)))
    ensures forall r :: r in from && isSurvivor(r.address) ==>
      Moved(r, forward(r.address), findNode(forward(r.address))) in Survivors(from, isSurvivor, forward, findNode)
  {
    if |from| > 0 {
      var init := from[..|from| - 1];
      SurvivorsAreMovedRecords(init, isSurvivor, forward, findNode);
      assert from == init + [from[|from| - 1]];
    }
  }

  // ----- the lock -----

  /** The checks whose failure ends the VM: `FatalError` checks, and the `ProgramError` check on safepoints. */
  datatype FatalCheck =
    | OwnerAtDepthZero       // the free lock still has an owner
    | MismatchedLockUnlock   // more unlocks than locks
    | NotLockOwner           // released by a thread that does not hold it
    | SafepointsReenabled    // safepoints were enabled inside the locked region
    | RecursiveAllocation    // a recording started while another was under way

  /** The lock's bookkeeping: nesting depth, owning thread, and whether safepoints are disabled. */
  datatype LockState = LockState(depth: int, owner: Option<int>, safepointsDisabled: bool)

  /** Free with no owner, or held by its owner with safepoints disabled. */
  predicate LockValid(s: LockState)
  {
    s.depth >= 0 && (s.depth == 0 <==> s.owner.None?) && (s.depth > 0 ==> s.safepointsDisabled)
  }

  /**
   * `lock`: disables safepoints, takes ownership at depth 0 (an owner at depth
   * 0 is fatal), and deepens; the result says whether this call disabled
   * safepoints. Hosted, it does nothing and answers true.
   */
  function LockStep(s: LockState, current: int, hosted: bool): (r: Result<(LockState, bool), FatalCheck>)
    ensures r.Failure? <==> !hosted && s.depth == 0 && s.owner.Some?
    ensures r.Failure? ==> r.error == OwnerAtDepthZero
    ensures !hosted && r.Success? ==>
      && r.value.0.depth == s.depth + 1 && r.value.0.safepointsDisabled
      && r.value.0.owner == (if s.depth == 0 then Some(current) else s.owner)
      && (r.value.1 <==> !s.safepointsDisabled)
  {
    if hosted then Success((s, true))
    else if s.depth == 0 && s.owner.Some? then
      Failure(OwnerAtDepthZero)
    else
      var owner := if s.depth == 0 then Some(current) else s.owner;
      Success((LockState(s.depth + 1, owner, true), !s.safepointsDisabled))
  }

  /**
   * `unlock`: shallows; a negative depth or a caller that is not the owner is
   * fatal, as is finding safepoints enabled; the owner is dropped at depth 0,
   * and safepoints are re-enabled when the matching `lock` disabled them.
   */
  function UnlockStep(s: LockState, current: int, lockDisabledSafepoints: bool, hosted: bool): (r: Result<LockState, FatalCheck>)
    ensures r.Failure? <==> !hosted && (s.depth < 1 || s.owner != Some(current) || !s.safepointsDisabled)
    ensures !hosted && r.Success? ==>
      && r.value.depth == s.depth - 1
      && (r.value.owner.None? <==> r.value.depth == 0)
      && (r.value.safepointsDisabled <==> !lockDisabledSafepoints)
  {
    if hosted then Success(s)
    else if s.depth - 1 < 0 then Failure(MismatchedLockUnlock)
    else if s.owner != Some(current) then Failure(NotLockOwner)
    else if !s.safepointsDisabled then
      Failure(SafepointsReenabled)
    else
      Success(LockState(s.depth - 1, if s.depth - 1 == 0 then None else s.owner, !lockDisabledSafepoints))
  }

  /** Locking a valid lock succeeds, keeps it valid, and leaves the caller the owner when it was free. */
  lemma LockKeepsValid(s: LockState, current: int)
    requires LockValid(s)
    ensures LockStep(s, current, false).Success?
    ensures var (s', disabledHere) := LockStep(s, current, false).value;
      && LockValid(s') && s'.depth == s.depth + 1
      && (s.depth == 0 ==> s'.owner == Some(current))
      && (disabledHere <==> !s.safepointsDisabled)
  {
  }

  /** A lock released by the thread that took it gives back exactly the state before the lock. */
  lemma UnlockUndoesLock(s: LockState, current: int, hosted: bool)
    requires LockValid(s) && (s.depth > 0 ==> s.owner == Some(current))
    ensures LockStep(s, current, hosted).Success?
    ensures var (s', disabledHere) := LockStep(s, current, hosted).value;
      UnlockStep(s', current, disabledHere, hosted) == Success(s)
  {
  }

  /** Only the owner may release the lock: any other caller is fatal. */
  lemma UnlockByOtherThreadIsFatal(s: LockState, current: int, other: int)
    requires LockValid(s) && s.depth > 0 && s.owner == Some(other) && other != current
    ensures UnlockStep(s, current, false, false).Failure?
    ensures UnlockStep(s, current, true, false).Failure?
  {
  }

  /**
   * Nested locking: an inner pair leaves safepoints disabled, and only the
   * outermost unlock re-enables them.
   */
  lemma NestedLockKeepsSafepointsDisabled(s: LockState, current: int)
    requires LockValid(s) && s.depth > 0 && s.owner == Some(current)
    ensures var (s', disabledHere) := LockStep(s, current, false).value;
      && !disabledHere
      && UnlockStep(s', current, disabledHere, false).Success?
      && UnlockStep(s', current, disabledHere, false).value.safepointsDisabled
  {
  }

  // ----- warm-up -----

  /** The explicit-GC policy: profiling starts once more explicit GCs than the threshold happened, or at once for threshold 0. */
  function WarmupFinished(iteration: Int32, threshold: Int32): (r: bool)
    ensures r <==> iteration > threshold || threshold == 0
  {
    iteration > threshold || threshold == 0
  }

  /** Once the warm-up is over, further explicit GCs keep it over. */
  lemma WarmupFinishedStays(iteration: Int32, later: Int32, threshold: Int32)
    requires iteration <= later && WarmupFinished(iteration, threshold)
    ensures WarmupFinished(later, threshold)
  {
  }

  /**
   * The flare-object policy: profiling is on while the flare counter lies in
   * `[threshold, threshold + window - 1]`, the upper bound computed with Java
   * int arithmetic.
   */
  function ObjectWarmupFinished(flareCounter: Int32, threshold: Int32, window: Int32): (r: bool)
    ensures r ==> threshold <= flareCounter
  {
    flareCounter >= threshold && flareCounter <= JavaAdd(threshold, JavaAdd(window, -1))
  }

  /** Without overflow, the flare policy profiles for exactly `window` consecutive counter values from the threshold. */
  lemma ObjectWarmupWindow(flareCounter: Int32, threshold: Int32, window: Int32)
    requires IsInt(window - 1) && IsInt(threshold + window - 1)
    ensures ObjectWarmupFinished(flareCounter, threshold, window) <==> threshold <= flareCounter < threshold + window
  {
  }

  /** When `threshold + window - 1` overflows, the flare policy never profiles. */
  lemma ObjectWarmupOverflow(flareCounter: Int32, threshold: Int32, window: Int32)
    requires window >= 1 && threshold >= 0 && !IsInt(threshold + window - 1)
    ensures !ObjectWarmupFinished(flareCounter, threshold, window)
  {
    assert IsInt(threshold) && IsInt(window) && IsInt(flareCounter);
    assert JavaAdd(window, -1) == window - 1;
    assert JavaAdd(threshold, window - 1) == threshold + window - 1 - INT_RANGE;
  }

  // ----- the profiler -----

  /** How a profiler operation ends: normally, by exiting the VM, by a fatal error, or by an index out of bounds. */
  datatype Outcome = Normal | Exit(status: int) | Fatal(check: FatalCheck) | ArrayIndexOutOfBounds

  /**
   * The profiler's state. In the VM these are static fields; the buffers are
   * created once, by the constructor. `lockState` gathers the lock depth, the
   * lock owner and whether safepoints are disabled; `hosted` says whether the
   * code runs while the boot image is built.
   */
  class AllocationProfiler {
    const hosted: bool
    const allocBufferSize: int
    const survBufferSize: int
    const newObjects: RecordBuffer
    const survivors1: RecordBuffer
    const survivors2: RecordBuffer
    const charArrayBuffer: array<char>
    var charArrayBufferLength: int
    var profilingCycle: Int32
    var uniqueId: Int32
    var totalNewSize: Int32
    var totalSurvSize: Int32
    var iteration: Int32
    var isExplicitGC: bool
    var ongoingAllocation: bool
    var lockState: LockState

    /**
     * Three distinct buffers within their capacities, and the double-buffer
     * discipline: the survivor buffer the next collection
     * fills (the second in an even cycle, the first in an odd one) is empty.
     */
    ghost predicate Valid()
      reads this, newObjects, survivors1, survivors2
    {
      && newObjects != survivors1 && newObjects != survivors2 && survivors1 != survivors2
      && newObjects.bufferSize == allocBufferSize
      && survivors1.bufferSize == survBufferSize && survivors2.bufferSize == survBufferSize
      && |newObjects.records| <= allocBufferSize
      && |survivors1.records| <= survBufferSize && |survivors2.records| <= survBufferSize
      && (profilingCycle % 2 == 0 ==> survivors2.records == [])
      && (profilingCycle % 2 != 0 ==> survivors1.records == [])
    }

    /** The constructor: buffers sized by the buffer-size option, a type-name buffer of `maxChars`, cycle 1. */
    constructor(bufferSizeOption: int, maxChars: nat, hosted: bool)
      ensures Valid()
      ensures allocBufferSize == BufferSize(bufferSizeOption) && survBufferSize == BufferSize(bufferSizeOption)
      ensures newObjects.records == [] && survivors1.records == [] && survivors2.records == []
      ensures charArrayBuffer.Length == maxChars && this.hosted == hosted
      ensures profilingCycle == 1 && uniqueId == 0 && totalNewSize == 0 && totalSurvSize == 0 && iteration == 0
      ensures !isExplicitGC && !ongoingAllocation && lockState == LockState(0, None, false)
      ensures fresh(newObjects) && fresh(survivors1) && fresh(survivors2) && fresh(charArrayBuffer)
    {
      this.hosted := hosted;
      var size := BufferSize(bufferSizeOption);
      allocBufferSize := size;
      survBufferSize := size;
      newObjects := new RecordBuffer(size);
      survivors1 := new RecordBuffer(size);
      survivors2 := new RecordBuffer(size);
      charArrayBuffer := new char[maxChars];
      charArrayBufferLength := 0;
      profilingCycle := 1;
      uniqueId := 0;
      totalNewSize := 0;
      totalSurvSize := 0;
      iteration := 0;
      isExplicitGC := false;
      ongoingAllocation := false;
      lockState := LockState(0, None, false);
    }

    /**
     * `asCharArray`: copies the string into the type-name buffer, ends it with
     * a NUL and records its length. A string that leaves no room for the NUL
     * runs off the buffer's end.
     */
    method AsCharArray(str: string) returns (outcome: Outcome)
      modifies this`charArrayBufferLength, charArrayBuffer
      ensures |str| < charArrayBuffer.Length ==>
        && outcome == Normal
        && charArrayBuffer[..] == str + ['\0'] + old(charArrayBuffer[|str| + 1..])
        && charArrayBufferLength == |str|
      ensures |str| >= charArrayBuffer.Length ==>
        && outcome == ArrayIndexOutOfBounds
        && charArrayBuffer[..] == str[..charArrayBuffer.Length]
        && charArrayBufferLength == old(charArrayBufferLength)
    {
      var i := 0;
      while i < |str|
        invariant 0 <= i <= |str| && i <= charArrayBuffer.Length
        invariant forall j :: 0 <= j < i ==> charArrayBuffer[j] == str[j]
        invariant forall j :: i <= j < charArrayBuffer.Length ==> charArrayBuffer[j] == old(charArrayBuffer[j])
        invariant charArrayBufferLength == old(charArrayBufferLength)
      {
        if i >= charArrayBuffer.Length {
          return ArrayIndexOutOfBounds;
        }
        charArrayBuffer[i] := str[i];
        i := i + 1;
      }
      if i >= charArrayBuffer.Length {
        return ArrayIndexOutOfBounds;
      }
      charArrayBuffer[i] := '\0';
      charArrayBufferLength := i;
      return Normal;
    }

    /** `lock`, as `LockStep` describes it; a fatal check leaves safepoints disabled. */
    method Lock(current: int) returns (r: Result<bool, FatalCheck>)
      modifies this`lockState
      ensures var step := LockStep(old(lockState), current, hosted);
        && (step.Success? ==> r == Success(step.value.1) && lockState == step.value.0)
        && (step.Failure? ==> r == Failure(step.error) && lockState == old(lockState).(safepointsDisabled := true))
    {
      if hosted {
        return Success(true);
      }
      var wasDisabled := lockState.safepointsDisabled;
      lockState := lockState.(safepointsDisabled := true);
      if lockState.depth == 0 {
        if lockState.owner.Some? {
          return Failure(OwnerAtDepthZero);
        }
        lockState := lockState.(owner := Some(current));
      }
      lockState := lockState.(depth := lockState.depth + 1);
      return Success(!wasDisabled);
    }

    /** `unlock`, as `UnlockStep` describes it; a fatal check comes after the depth is lowered. */
    method Unlock(current: int, lockDisabledSafepoints: bool) returns (r: Result<(), FatalCheck>)
      modifies this`lockState
      ensures var step := UnlockStep(old(lockState), current, lockDisabledSafepoints, hosted);
        && (step.Success? ==> r.Success? && lockState == step.value)
        && (step.Failure? ==> r == Failure(step.error) && lockState.depth == old(lockState).depth - 1)
    {
      if hosted {
        return Success(());
      }
      lockState := lockState.(depth := lockState.depth - 1);
      if lockState.depth < 0 {
        return Failure(MismatchedLockUnlock);
      }
      if lockState.owner != Some(current) {
        return Failure(NotLockOwner);
      }
      if lockState.depth == 0 {
        lockState := lockState.(owner := None);
      }
      if !lockState.safepointsDisabled {
        return Failure(SafepointsReenabled);
      }
      if lockDisabledSafepoints {
        lockState := lockState.(safepointsDisabled := false);
      }
      return Success(());
    }

    /**
     * `profile`: under the lock, records one allocation with the next id,
     * counts its size, and releases the lock. A re-entrant call is fatal and a
     * full buffer exits the VM; either way nothing is recorded.
     */
    method Profile(size: Int32, typeName: string, address: int, current: int) returns (outcome: Outcome)
      requires Valid()
      modifies this`lockState, this`charArrayBufferLength, this`ongoingAllocation, this`uniqueId, this`totalNewSize
      modifies newObjects, charArrayBuffer
      ensures Valid()
      ensures var step := LockStep(old(lockState), current, hosted);
        var recorded := step.Success? && |typeName| < charArrayBuffer.Length && !old(ongoingAllocation)
                        && |old(newObjects.records)| < allocBufferSize;
        && (step.Failure? ==> outcome == Fatal(step.error))
        && (step.Success? && |typeName| >= charArrayBuffer.Length ==> outcome == ArrayIndexOutOfBounds)
        && (step.Success? && |typeName| < charArrayBuffer.Length && old(ongoingAllocation) ==>
              outcome == Fatal(RecursiveAllocation))
        && ((step.Success? && |typeName| < charArrayBuffer.Length && !old(ongoingAllocation)
             && |old(newObjects.records)| >= allocBufferSize) ==> outcome == Exit(1))
        && (!recorded ==> newObjects.records == old(newObjects.records) && uniqueId == old(uniqueId)
                          && totalNewSize == old(totalNewSize))
        && (recorded ==>
              && newObjects.records == old(newObjects.records) + [Record(old(uniqueId), current, typeName, size, address, None)]
              && uniqueId == JavaAdd(old(uniqueId), 1)
              && totalNewSize == JavaAdd(old(totalNewSize), size)
              && !ongoingAllocation
              && (outcome == Normal <==> UnlockStep(step.value.0, current, step.value.1, hosted).Success?)
              && (outcome == Normal ==> lockState == UnlockStep(step.value.0, current, step.value.1, hosted).value))
      ensures (&& LockValid(old(lockState)) && (old(lockState).depth > 0 ==> old(lockState).owner == Some(current))
               && |typeName| < charArrayBuffer.Length && !old(ongoingAllocation)
               && |old(newObjects.records)| < allocBufferSize) ==>
                outcome == Normal && lockState == old(lockState)
    {
      var locked := Lock(current);
      if locked.Failure? {
        return Fatal(locked.error);
      }
      var lockDisabledSafepoints := locked.value;
      outcome := AsCharArray(typeName);
      if outcome != Normal {
        return;
      }
      var threadId := current;
      if ongoingAllocation {
        return Fatal(RecursiveAllocation);
      }
      ongoingAllocation := true;
      if newObjects.CurrentIndex() >= newObjects.bufferSize {
        return Exit(1);
      }
      newObjects.Append(Record(uniqueId, threadId, typeName, size, address, None));
      uniqueId := JavaAdd(uniqueId, 1);
      totalNewSize := JavaAdd(totalNewSize, size);
      ongoingAllocation := false;
      if LockValid(old(lockState)) && (old(lockState).depth > 0 ==> old(lockState).owner == Some(current)) {
        UnlockUndoesLock(old(lockState), current, hosted);
      }
      var unlocked := Unlock(current, lockDisabledSafepoints);
      if unlocked.Failure? {
        return Fatal(unlocked.error);
      }
      return Normal;
    }

    /**
     * `storeSurvivors`: appends to `to`, in order, the moved record of every
     * record of `from` whose object survived, and adds their sizes to the
     * survivor total; running out of room in `to` exits the VM.
     */
    method StoreSurvivors(from: RecordBuffer, to: RecordBuffer, isSurvivor: int -> bool, forward: int -> int, findNode: int -> int)
      returns (outcome: Outcome)
      requires from != to && |to.records| <= to.bufferSize
      modifies to, this`totalSurvSize
      ensures var moved := Survivors(from.records, isSurvivor, forward, findNode);
        && (outcome == Normal || outcome == Exit(1))
        && (outcome == Exit(1) <==> |old(to.records)| + |moved| > to.bufferSize)
        && (outcome == Normal ==>
              && to.records == old(to.records) + moved
              && totalSurvSize == AddSizes(old(totalSurvSize), moved))
    {
      var rs := from.records;
      for i := 0 to |rs|
        invariant to.records == old(to.records) + Survivors(rs[..i], isSurvivor, forward, findNode)
        invariant totalSurvSize == AddSizes(old(totalSurvSize), Survivors(rs[..i], isSurvivor, forward, findNode))
        invariant |to.records| <= to.bufferSize
      {
        var address := rs[i].address;
        SurvivorsStep(rs, i, old(totalSurvSize), isSurvivor, forward, findNode);
        if isSurvivor(address) {
          var newAddr := forward(address);
          var node := findNode(newAddr);
          if to.CurrentIndex() >= to.bufferSize {
            SurvivorsGrow(rs, i + 1, isSurvivor, forward, findNode);
            return Exit(1);
          }
          to.Append(Moved(rs[i], newAddr, node));
          totalSurvSize := JavaAdd(totalSurvSize, rs[i].size);
        }
      }
      assert rs[..|rs|] == rs;
      return Normal;
    }

    /**
     * `profileSurvivors`: in an even cycle the first survivor buffer and then
     * the new objects are filtered into the second survivor buffer; in an odd
     * cycle into the first.
     */
    method ProfileSurvivors(isSurvivor: int -> bool, forward: int -> int, findNode: int -> int) returns (outcome: Outcome)
      requires Valid()
      modifies survivors1, survivors2, this`totalSurvSize
      ensures var even := profilingCycle % 2 == 0;
        var kept := if even then old(survivors1.records) else old(survivors2.records);
        var moved := Survivors(kept, isSurvivor, forward, findNode)
                     + Survivors(newObjects.records, isSurvivor, forward, findNode);
        && (outcome == Normal || outcome == Exit(1))
        && (outcome == Normal <==> |moved| <= survBufferSize)
        && (outcome == Normal ==>
              && (even ==> survivors2.records == moved && survivors1.records == old(survivors1.records))
              && (!even ==> survivors1.records == moved && survivors2.records == old(survivors2.records))
              && totalSurvSize == AddSizes(old(totalSurvSize), moved))
    {
      ghost var kept := if profilingCycle % 2 == 0 then survivors1.records else survivors2.records;
      ghost var first := Survivors(kept, isSurvivor, forward, findNode);
      ghost var second := Survivors(newObjects.records, isSurvivor, forward, findNode);
      if profilingCycle % 2 == 0 {
        assert survivors2.records == [];
        outcome := StoreSurvivors(survivors1, survivors2, isSurvivor, forward, findNode);
        if outcome != Normal {
          return;
        }
        assert survivors2.records == first;
        outcome := StoreSurvivors(newObjects, survivors2, isSurvivor, forward, findNode);
        AddSizesAppend(old(totalSurvSize), first, second);
      } else {
        assert survivors1.records == [];
        outcome := StoreSurvivors(survivors2, survivors1, isSurvivor, forward, findNode);
        if outcome != Normal {
          return;
        }
        assert survivors1.records == first;
        outcome := StoreSurvivors(newObjects, survivors1, isSurvivor, forward, findNode);
        AddSizesAppend(old(totalSurvSize), first, second);
      }
    }

    /**
     * `postGCActions`: filters the survivors, empties the survivor buffer just
     * read and the new-objects buffer, carries the survivor total over as the
     * new total, counts an explicit collection, and starts the next cycle.
     */
    method PostGCActions(isSurvivor: int -> bool, forward: int -> int, findNode: int -> int) returns (outcome: Outcome)
      requires Valid()
      modifies this, newObjects, survivors1, survivors2
      ensures var even := old(profilingCycle) % 2 == 0;
        var kept := if even then old(survivors1.records) else old(survivors2.records);
        var moved := Survivors(kept, isSurvivor, forward, findNode)
                     + Survivors(old(newObjects.records), isSurvivor, forward, findNode);
        && (outcome == Normal <==> |moved| <= survBufferSize)
        && (outcome == Normal ==>
              && Valid()
              && (even ==> survivors2.records == moved && survivors1.records == [])
              && (!even ==> survivors1.records == moved && survivors2.records == [])
              && newObjects.records == []
              && totalNewSize == AddSizes(old(totalSurvSize), moved)
              && totalSurvSize == 0
              && iteration == (if old(isExplicitGC) then JavaAdd(old(iteration), 1) else old(iteration))
              && !isExplicitGC
              && profilingCycle == JavaAdd(old(profilingCycle), 1)
              && uniqueId == old(uniqueId) && lockState == old(lockState) && ongoingAllocation == old(ongoingAllocation))
    {
      outcome := ProfileSurvivors(isSurvivor, forward, findNode);
      if outcome != Normal {
        return;
      }
      if profilingCycle % 2 == 0 {
        survivors1.ResetBuffer();
      } else {
        survivors2.ResetBuffer();
      }
      newObjects.ResetBuffer();
      totalNewSize := totalSurvSize;
      totalSurvSize := 0;
      if isExplicitGC {
        iteration := JavaAdd(iteration, 1);
        isExplicitGC := false;
      }
      JavaIncrementFlipsParity(profilingCycle);
      profilingCycle := JavaAdd(profilingCycle, 1);
    }
  }

  /** One more record of `from`: its moved record, if it survived, is appended, and its size added to the total. */
  lemma SurvivorsStep(from: seq<Record>, i: nat, total: Int32, isSurvivor: int -> bool, forward: int -> int, findNode: int -> int)
    requires i < |from|
    ensures var r := from[i];
      var prefix := Survivors(from[..i], isSurvivor, forward, findNode);
      var next := Survivors(from[..i + 1], isSurvivor, forward, findNode);
      && (isSurvivor(r.address) ==>
            && next == prefix + [Moved(r, forward(r.address), findNode(forward(r.address)))]
            && AddSizes(total, next) == JavaAdd(AddSizes(total, prefix), r.size))
      && (!isSurvivor(r.address) ==> next == prefix)
  {
    assert from[..i + 1][..i] == from[..i];
    var r := from[i];
    var prefix := Survivors(from[..i], isSurvivor, forward, findNode);
    if isSurvivor(r.address) {
      AddSizesSnoc(total, prefix, Moved(r, forward(r.address), findNode(forward(r.address))));
    }
  }

  /** Filtering a longer prefix never yields fewer survivors. */
  lemma SurvivorsGrow(from: seq<Record>, n: nat, isSurvivor: int -> bool, forward: int -> int, findNode: int -> int)
    requires n <= |from|
    ensures |Survivors(from[..n], isSurvivor, forward, findNode)| <= |Survivors(from, isSurvivor, forward, findNode)|
    decreases |from| - n
  {
    if n < |from| {
      SurvivorsGrow(from, n + 1, isSurvivor, forward, findNode);
      assert from[..n + 1][..n] == from[..n];
    } else {
      assert from[..n] == from;
    }
  }
}
