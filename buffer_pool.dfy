// BufferPoolUtils: the sizes the aligned allocators ask for, and the simple
// reuse queue behind `allocate(size)`. A returned buffer waits in the queue;
// an allocation takes the head and reuses it when capacity and kind match,
// destroying it otherwise. The periodic cleaner destroys at most ten queued
// buffers per run, and only after a run in which nothing was allocated.

module BufferPool {
  import opened Util

  const InvalidSizeMessage: string := "invalid size or chunkSize"
  const TooLargeMessage: string := "aligned size too large"
  const NonPositiveMessage: string := "size must be > 0"

  /** A size the aligned allocators settle on, or the IllegalArgumentException they throw. */
  datatype SizeResult = Size(n: int) | Invalid(message: string)

  /**
   * The size an aligned allocator asks for: the size rounded up to the next
   * multiple of the chunk size. Non-positive arguments and a rounded size
   * beyond the int range are refused.
   */
  function AlignedSize(chunkSize: int, size: int): (r: SizeResult)
    ensures (size <= 0 || chunkSize <= 0) <==> r == Invalid(InvalidSizeMessage)
    ensures r.Size? ==> r.n % chunkSize == 0 && size <= r.n < size + chunkSize && r.n <= Int32Max
    ensures r.Size? && size % chunkSize == 0 ==> r.n == size
    ensures size > 0 && chunkSize > 0 && r.Invalid? ==> r.message == TooLargeMessage
  {
    if size <= 0 || chunkSize <= 0 then Invalid(InvalidSizeMessage)
    else
      var need := RoundUp(chunkSize, size);
      if need > Int32Max then Invalid(TooLargeMessage) else Size(need)
  }

  /** `size` rounded up to a multiple of `chunkSize`, as the allocators compute it. */
  function RoundUp(chunkSize: int, size: int): (need: int)
    requires chunkSize > 0 && size > 0
    ensures need % chunkSize == 0 && size <= need < size + chunkSize
    ensures size % chunkSize == 0 ==> need == size
  {
    var m := size % chunkSize;
    var q := size / chunkSize;
    assert size == q * chunkSize + m;
    if m == 0 then size
    else
      assert size + chunkSize - m == (q + 1) * chunkSize;
      MultipleMod(q + 1, chunkSize);
      size + chunkSize - m
  }

  lemma MultipleMod(q: int, c: int)
    requires c > 0
    ensures (q * c) % c == 0
  {
    ModUnique(q * c, c, q, 0);
  }

  /** Euclidean remainders are unique: `a * c + r` with `0 <= r < c` leaves `r`. */
  lemma ModUnique(x: int, c: int, a: int, r: int)
    requires c > 0 && 0 <= r < c && x == a * c + r
    ensures x % c == r
  {
    var d := a - x / c;
    assert d * c == x % c - r;
    MulCancel(d, 1, c);
    MulCancel(-1, d, c);
  }

  /** Multiplying by a positive number keeps a strict order, read backwards. */
  lemma MulCancel(x: int, y: int, c: int)
    requires c > 0 && x * c < y * c
    ensures x < y
  {
    if x >= y {
      MulMono(y, x, c);
    }
  }

  lemma MulMono(x: int, y: int, c: int)
    requires c > 0 && x <= y
    ensures x * c <= y * c
  {
    assert y * c - x * c == (y - x) * c;
  }

  /** The aligned size is the least multiple of the chunk size that holds `size`. */
  lemma AlignedSizeIsLeast(chunkSize: int, size: int, k: int)
    requires AlignedSize(chunkSize, size).Size?
    requires k >= size && k % chunkSize == 0
    ensures k >= AlignedSize(chunkSize, size).n
  {
    LeastMultiple(chunkSize, size, k);
  }

  /** A refused aligned size means every multiple that holds `size` is beyond the int range. */
  lemma AlignedRefusalIsForced(chunkSize: int, size: int, k: int)
    requires size > 0 && chunkSize > 0 && AlignedSize(chunkSize, size).Invalid?
    requires k >= size && k % chunkSize == 0
    ensures k > Int32Max
  {
    LeastMultiple(chunkSize, size, k);
  }

  lemma LeastMultiple(chunkSize: int, size: int, k: int)
    requires chunkSize > 0 && size > 0
    requires k >= size && k % chunkSize == 0
    ensures k >= RoundUp(chunkSize, size)
  {
    var n := RoundUp(chunkSize, size);
    var a, b := k / chunkSize, n / chunkSize;
    assert k == a * chunkSize && n == b * chunkSize;
    assert (b - 1) * chunkSize == n - chunkSize;
    MulCancel(b - 1, a, chunkSize);
    MulMono(b, a, chunkSize);
  }

  /** A pooled NIO buffer: its identity, capacity, kind and window. */
  datatype PooledBuffer = PooledBuffer(serial: nat, capacity: int, isDirect: bool, position: int, limit: int)

  /** What an allocation hands back: a buffer, or the refusal of a bad size. */
  datatype Allocation = Allocated(buffer: PooledBuffer) | Refused(message: string)

  /** The two thread-bound allocations the page pool offers. */
  datatype PageKind = Request | Response

  /** The buffers of `s` that need an explicit free: the direct ones, in order. */
  function Directs(s: seq<PooledBuffer>): (d: seq<PooledBuffer>)
    ensures |d| <= |s|
    ensures forall b :: b in d <==> b in s && b.isDirect
  {
    if s == [] then [] else (if s[0].isDirect then [s[0]] else []) + Directs(s[1..])
  }

  lemma {:induction false} DirectsAppend(a: seq<PooledBuffer>, b: seq<PooledBuffer>)
    ensures Directs(a + b) == Directs(a) + Directs(b)
  {
    if a == [] {
      assert a + b == b;
    } else {
      assert (a + b)[0] == a[0];
      assert (a + b)[1..] == a[1..] + b;
      DirectsAppend(a[1..], b);
    }
  }

  /** Whether a queued buffer can serve an allocation of `size`. */
  predicate Reusable(b: PooledBuffer, size: int, direct: bool)
  {
    b.capacity == size && b.isDirect == direct
  }

  class Pool {
    /** Whether new buffers are direct (`tio.core.buffer.direct`). */
    const direct: bool
    /** False once an allocation happened since the cleaner last looked. */
    var idle: bool
    /** Returned buffers waiting to be reused or destroyed, head first. */
    var cleanBuffers: seq<PooledBuffer>
    /** The direct buffers freed so far, in order. */
    var freed: seq<PooledBuffer>
    /** The serial the next newly allocated buffer gets. */
    var nextSerial: nat
    var reuseHits: nat
    var newAllocs: nat
    /** What the thread-bound page pool was asked for. */
    var pageRequests: seq<(PageKind, int)>

    constructor (direct: bool)
      ensures this.direct == direct && idle && cleanBuffers == [] && freed == []
      ensures reuseHits == 0 && newAllocs == 0 && pageRequests == []
    {
      this.direct := direct;
      idle := true;
      cleanBuffers, freed := [], [];
      nextSerial, reuseHits, newAllocs := 0, 0, 0;
      pageRequests := [];
    }

    /** `clean0`: a direct buffer is freed; a heap buffer is left to the collector. */
    method Clean0(b: PooledBuffer)
      modifies this`freed
      ensures freed == old(freed) + Directs([b])
    {
      if b.isDirect {
        freed := freed + [b];
      }
    }

    /**
     * `allocate(size)`: a non-positive size is refused before anything
     * changes. Otherwise the pool is marked busy and the head of the queue
     * is taken: it is reused, cleared, when its capacity and kind match,
     * and destroyed otherwise, in which case (as with an empty queue) a new
     * buffer of the pool's kind is allocated.
     */
    method Allocate(size: int) returns (r: Allocation)
      modifies this`idle, this`cleanBuffers, this`freed, this`nextSerial, this`reuseHits, this`newAllocs
      ensures size <= 0 ==>
        && r == Refused(NonPositiveMessage) && idle == old(idle)
        && cleanBuffers == old(cleanBuffers) && freed == old(freed)
      ensures size > 0 ==>
        && !idle && r.Allocated?
        && r.buffer.capacity == size && r.buffer.position == 0 && r.buffer.limit == size
        && reuseHits + newAllocs == old(reuseHits) + old(newAllocs) + 1
        && cleanBuffers == if old(cleanBuffers) == [] then [] else old(cleanBuffers)[1..]
      ensures size > 0 && old(cleanBuffers) != [] && Reusable(old(cleanBuffers)[0], size, direct) ==>
        && r.buffer.serial == old(cleanBuffers)[0].serial && r.buffer.isDirect == direct
        && freed == old(freed) && reuseHits == old(reuseHits) + 1
      ensures size > 0 && (old(cleanBuffers) == [] || !Reusable(old(cleanBuffers)[0], size, direct)) ==>
        && r.buffer == PooledBuffer(old(nextSerial), size, direct, 0, size)
        && newAllocs == old(newAllocs) + 1
        && freed == old(freed) + (if old(cleanBuffers) == [] then [] else Directs([old(cleanBuffers)[0]]))
    {
      if size <= 0 {
        return Refused(NonPositiveMessage);
      }
      idle := false;
      if cleanBuffers != [] {
        var bb := cleanBuffers[0];
        cleanBuffers := cleanBuffers[1..];
        if Reusable(bb, size, direct) {
          reuseHits := reuseHits + 1;
          return Allocated(bb.(position := 0, limit := bb.capacity));
        }
        Clean0(bb);
      }
      newAllocs := newAllocs + 1;
      r := Allocated(PooledBuffer(nextSerial, size, direct, 0, size));
      nextSerial := nextSerial + 1;
    }

    /** `allocate(chunkSize, size)`: the aligned size, then `allocate`. */
    method AllocateAligned(chunkSize: int, size: int) returns (r: Allocation)
      modifies this`idle, this`cleanBuffers, this`freed, this`nextSerial, this`reuseHits, this`newAllocs
      ensures AlignedSize(chunkSize, size).Invalid? ==>
        && r == Refused(AlignedSize(chunkSize, size).message)
        && idle == old(idle) && cleanBuffers == old(cleanBuffers) && freed == old(freed)
      ensures AlignedSize(chunkSize, size).Size? ==>
        && r.Allocated? && r.buffer.capacity == AlignedSize(chunkSize, size).n && !idle
        && r.buffer.capacity % chunkSize == 0 && r.buffer.capacity >= size
    {
      var need := AlignedSize(chunkSize, size);
      if need.Invalid? {
        return Refused(need.message);
      }
      r := Allocate(need.n);
    }

    /**
     * `allocateRequest(chunkSize, size)` and `allocateResponse(chunkSize,
     * size)`: the aligned size, asked of the thread-bound page pool.
     */
    method AllocateFromPages(kind: PageKind, chunkSize: int, size: int) returns (r: SizeResult)
      modifies this`pageRequests
      ensures r == AlignedSize(chunkSize, size)
      ensures pageRequests == old(pageRequests) + (if r.Size? then [(kind, r.n)] else [])
    {
      r := AlignedSize(chunkSize, size);
      if r.Size? {
        pageRequests := pageRequests + [(kind, r.n)];
      }
    }

    /** `clean`: a returned buffer joins the tail of the queue; a null one is ignored. */
    method Clean(b: Option<PooledBuffer>)
      modifies this`cleanBuffers
      ensures cleanBuffers == old(cleanBuffers) + (if b.Some? then [b.value] else [])
    {
      if b.Some? {
        cleanBuffers := cleanBuffers + [b.value];
      }
    }

    /**
     * `tryClean`: after a period with an allocation it only marks the pool
     * idle again; after an idle period it destroys up to ten buffers from
     * the head of the queue.
     */
    method TryClean()
      modifies this`idle, this`cleanBuffers, this`freed
      ensures idle
      ensures !old(idle) ==> cleanBuffers == old(cleanBuffers) && freed == old(freed)
      ensures old(idle) ==>
        var k := Min(10, |old(cleanBuffers)|);
        cleanBuffers == old(cleanBuffers)[k..] && freed == old(freed) + Directs(old(cleanBuffers)[..k])
    {
      if !idle {
        idle := true;
        return;
      }
      var count := 0;
      while idle && count < 10 && cleanBuffers != []
        invariant idle
        invariant 0 <= count <= 10 && count <= |old(cleanBuffers)|
        invariant cleanBuffers == old(cleanBuffers)[count..]
        invariant freed == old(freed) + Directs(old(cleanBuffers)[..count])
        decreases 10 - count
      {
        var buf := cleanBuffers[0];
        cleanBuffers := cleanBuffers[1..];
        Clean0(buf);
        DirectsAppend(old(cleanBuffers)[..count], [buf]);
        assert old(cleanBuffers)[..count + 1] == old(cleanBuffers)[..count] + [buf];
        count := count + 1;
      }
    }

    /** `release`: every queued buffer is destroyed. */
    method Release()
      modifies this`cleanBuffers, this`freed
      ensures cleanBuffers == []
      ensures freed == old(freed) + Directs(old(cleanBuffers))
    {
      var taken := 0;
      while cleanBuffers != []
        invariant 0 <= taken <= |old(cleanBuffers)|
        invariant cleanBuffers == old(cleanBuffers)[taken..]
        invariant freed == old(freed) + Directs(old(cleanBuffers)[..taken])
        decreases |cleanBuffers|
      {
        var buf := cleanBuffers[0];
        cleanBuffers := cleanBuffers[1..];
        Clean0(buf);
        DirectsAppend(old(cleanBuffers)[..taken], [buf]);
        assert old(cleanBuffers)[..taken + 1] == old(cleanBuffers)[..taken] + [buf];
        taken := taken + 1;
      }
      assert old(cleanBuffers)[..taken] == old(cleanBuffers);
    }
  }
}
