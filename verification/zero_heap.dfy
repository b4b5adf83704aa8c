/** The zero-heap guard: `malloc`, `calloc`, `realloc` and `free` overridden so
    that the firmware never uses dynamic memory. `assertsEnabled` says whether
    C `assert` is compiled in (a debug build) or compiled out (`NDEBUG`). */
module ZeroHeap {
  import opened Outcomes

  /** A C data pointer. */
  datatype Ptr = Null | Address(addr: nat)

  /** `malloc(sz)`. */
  function Malloc(assertsEnabled: bool, sz: nat): (o: Outcome<Ptr>)
    ensures o == Return(Null) || o == AssertFailed("sz == 0")
    ensures o.AssertFailed? <==> assertsEnabled && sz != 0
  {
    if assertsEnabled && !(sz == 0) then AssertFailed("sz == 0") else Return(Null)
  }

  /** `calloc(num, sz)`: the check is on the two arguments separately. */
  function Calloc(assertsEnabled: bool, num: nat, sz: nat): (o: Outcome<Ptr>)
    ensures o == Return(Null) || o == AssertFailed("(num == 0) || (sz == 0)")
    ensures o.AssertFailed? <==> assertsEnabled && num != 0 && sz != 0
  {
    if assertsEnabled && !(num == 0 || sz == 0) then AssertFailed("(num == 0) || (sz == 0)")
    else Return(Null)
  }

  /** `realloc(p, sz)`: the old pointer is not looked at. */
  function Realloc(assertsEnabled: bool, p: Ptr, sz: nat): (o: Outcome<Ptr>)
    ensures o == Return(Null) || o == AssertFailed("sz == 0")
    ensures o.AssertFailed? <==> assertsEnabled && sz != 0
  {
    if assertsEnabled && !(sz == 0) then AssertFailed("sz == 0") else Return(Null)
  }

  /** `free(p)`: null is ignored, anything else halts the system. */
  function Free(p: Ptr): (o: Outcome<()>)
    ensures o == Return(()) <==> p == Null
    ensures o != Return(()) ==> o == Halted("free")
  {
    if p != Null then Halted("free") else Return(())
  }

  /** A zero-sized request never fails, in either build, and yields null. */
  lemma ZeroSizeIsNull(assertsEnabled: bool, n: nat, p: Ptr)
    ensures Malloc(assertsEnabled, 0) == Return(Null)
    ensures Calloc(assertsEnabled, n, 0) == Return(Null)
    ensures Calloc(assertsEnabled, 0, n) == Return(Null)
    ensures Realloc(assertsEnabled, p, 0) == Return(Null)
  {
  }

  /** With assertions compiled out every request yields null. */
  lemma ReleaseBuildIsNull(n: nat, sz: nat, p: Ptr)
    ensures Malloc(false, sz) == Return(Null)
    ensures Calloc(false, n, sz) == Return(Null)
    ensures Realloc(false, p, sz) == Return(Null)
  {
  }

  /** `calloc` fails exactly when the requested byte count is non-zero. */
  lemma CallocFailsIffBytes(num: nat, sz: nat)
    ensures Calloc(true, num, sz).AssertFailed? <==> num * sz != 0
  {
    if num != 0 && sz != 0 {
      assert num * sz >= sz;
    }
  }

  /** `realloc` does not depend on the pointer it is given. */
  lemma ReallocIgnoresPointer(assertsEnabled: bool, p: Ptr, q: Ptr, sz: nat)
    ensures Realloc(assertsEnabled, p, sz) == Realloc(assertsEnabled, q, sz)
  {
  }

  /** No allocator ever hands out a pointer, so freeing whatever one of them
      returned never reaches the halt. */
  lemma FreeOfAllocatedNeverHalts(assertsEnabled: bool, num: nat, sz: nat, p: Ptr)
    ensures Malloc(assertsEnabled, sz).Return? ==> Free(Malloc(assertsEnabled, sz).value) == Return(())
    ensures Calloc(assertsEnabled, num, sz).Return? ==> Free(Calloc(assertsEnabled, num, sz).value) == Return(())
    ensures Realloc(assertsEnabled, p, sz).Return? ==> Free(Realloc(assertsEnabled, p, sz).value) == Return(())
  {
  }
}
