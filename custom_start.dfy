/**
 * The LPC176x start-up heap (src/lpc176x/custom_start.c): the 32-byte
 * alignment of the heap limit, the collision test against the stack, and
 * `_sbrk`.  Addresses are 32-bit; the main stack pointer and the linker
 * symbols `__StackTop` and `__end__` are parameters.
 */
module CustomStart {
  import opened Ints
  import opened Wrappers

  const STACK_SIZE: nat := 3072

  /** `alignTo32Bytes`: `(value + 31) & ~31` in 32-bit arithmetic. */
  function AlignTo32Bytes(value: u32): (r: u32)
    ensures r % 32 == 0
    ensures value as int + 31 < 0x1_0000_0000 ==> value <= r && r as int < value as int + 32
    ensures value as int + 31 >= 0x1_0000_0000 ==> r == 0
  {
    (ToU32(value as int + 31) / 32) * 32
  }

  /** Aligning is the identity on multiples of 32 and idempotent. */
  lemma AlignIdempotent(value: u32)
    ensures value % 32 == 0 ==> AlignTo32Bytes(value) == value
    ensures AlignTo32Bytes(AlignTo32Bytes(value)) == AlignTo32Bytes(value)
  {
  }

  /** The heap limit `configureStackSizeLimit` stores: 32 bytes of guard below the reserved stack, rounded up. */
  function MaximumHeapAddress(stackTop: u32, stackSizeLimit: u32): (r: u32)
    ensures r % 32 == 0
  {
    AlignTo32Bytes(ToU32(stackTop as int - stackSizeLimit as int - 32))
  }

  /** When the stack fits below its top, the limit is the first 32-byte boundary at or above `stackTop - limit - 32`, so at least `limit` bytes remain below the stack top. */
  lemma MaximumHeapBelowStack(stackTop: u32, stackSizeLimit: u32)
    requires stackSizeLimit as int + 32 <= stackTop as int && stackTop % 32 == 0
    ensures var m := MaximumHeapAddress(stackTop, stackSizeLimit) as int;
      stackTop as int - stackSizeLimit as int - 32 <= m <= stackTop as int - stackSizeLimit as int
  {
  }

  /** `doesHeapCollideWithStack`. */
  predicate CollidesWithStack(newHeap: u32, msp: u32, maximumHeapAddress: u32)
  {
    newHeap >= msp || (STACK_SIZE != 0 && newHeap >= maximumHeapAddress)
  }

  /** The break after moving by `incr` bytes: pointer arithmetic modulo 2^32. */
  function Moved(heap: u32, incr: i32): u32
  {
    ToU32(heap as int + incr as int)
  }

  /** `_sbrk` as a function of the break: `None` stands for the `(caddr_t)-1` failure. */
  function Sbrk(heap: u32, incr: i32, msp: u32, maximumHeapAddress: u32): (r: (Option<u32>, u32))
    ensures r.0.None? <==> CollidesWithStack(Moved(heap, incr), msp, maximumHeapAddress)
    ensures r.0.None? ==> r.1 == heap
    ensures r.0.Some? ==> r.0.value == heap && r.1 as int == (heap as int + incr as int) % 0x1_0000_0000
    ensures r.0.Some? ==> r.1 < msp && r.1 < maximumHeapAddress
  {
    var newHeap := Moved(heap, incr);
    if CollidesWithStack(newHeap, msp, maximumHeapAddress) then (None, heap) else (Some(heap), newHeap)
  }

  /** Two successful calls hand out adjacent regions: the second starts where the first ends. */
  lemma ConsecutiveRegionsAdjacent(heap: u32, incr1: i32, incr2: i32, msp: u32, maximumHeapAddress: u32)
    requires 0 <= incr1 && heap as int + incr1 as int < 0x1_0000_0000
    requires Sbrk(heap, incr1, msp, maximumHeapAddress).0.Some?
    ensures var h1 := Sbrk(heap, incr1, msp, maximumHeapAddress).1;
      h1 as int == heap as int + incr1 as int &&
      (Sbrk(h1, incr2, msp, maximumHeapAddress).0.Some? ==> Sbrk(h1, incr2, msp, maximumHeapAddress).0.value as int == heap as int + incr1 as int)
  {
  }

  /** Whatever sequence of calls is made, the break never reaches the heap limit once it starts below it. */
  lemma {:induction false} BreakStaysBelowLimit(heap: u32, incrs: seq<i32>, msp: u32, maximumHeapAddress: u32)
    requires heap < maximumHeapAddress
    ensures AfterAll(heap, incrs, msp, maximumHeapAddress) < maximumHeapAddress
    decreases |incrs|
  {
    if |incrs| > 0 {
      var h1 := Sbrk(heap, incrs[0], msp, maximumHeapAddress).1;
      BreakStaysBelowLimit(h1, incrs[1..], msp, maximumHeapAddress);
    }
  }

  /** The break after a sequence of `_sbrk` calls. */
  function AfterAll(heap: u32, incrs: seq<i32>, msp: u32, maximumHeapAddress: u32): u32
    decreases |incrs|
  {
    if |incrs| == 0 then heap
    else AfterAll(Sbrk(heap, incrs[0], msp, maximumHeapAddress).1, incrs[1..], msp, maximumHeapAddress)
  }

  /** The static `heap` break and the global `g_maximumHeapAddress`. */
  class StartupHeap {
    var heap: u32
    var maximumHeapAddress: u32

    /** At reset the break is `__end__` and the global is zero. */
    constructor (end: u32)
      ensures heap == end && maximumHeapAddress == 0
    {
      heap, maximumHeapAddress := end, 0;
    }

    /** `configureStackSizeLimit`; the MPU guard region it then programs is not modelled. */
    method ConfigureStackSizeLimit(stackTop: u32, stackSizeLimit: u32)
      modifies this`maximumHeapAddress
      ensures maximumHeapAddress == MaximumHeapAddress(stackTop, stackSizeLimit)
    {
      maximumHeapAddress := AlignTo32Bytes(ToU32(stackTop as int - stackSizeLimit as int - 32));
    }

    /** `_sbrk(incr)`, with `msp` the main stack pointer at the call. */
    method SbrkCall(incr: i32, msp: u32) returns (r: Option<u32>)
      modifies this`heap
      ensures (r, heap) == Sbrk(old(heap), incr, msp, maximumHeapAddress)
    {
      var prevHeap := heap;
      var newHeap := ToU32(heap as int + incr as int);
      if newHeap >= msp || (STACK_SIZE != 0 && newHeap >= maximumHeapAddress) {
        return None;
      }
      heap := newHeap;
      return Some(prevHeap);
    }
  }
}
