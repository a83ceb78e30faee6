/** The growing frame buffer. */
module PutFrameHelpers {
  import opened Words

  /** Largest request whose size and a half still fits in 32 bits. */
  const MAX_REQUEST: int := 2_863_311_530

  function Grow(size: U32, requested: U32): U32 {
    if requested > size then Wrap32(requested + requested / 2) else size
  }

  function Run(size: U32, requests: seq<U32>): U32 {
    if requests == [] then size else Grow(Run(size, requests[..|requests| - 1]), requests[|requests| - 1])
  }

  function Reallocations(size: U32, requests: seq<U32>): nat {
    if requests == [] then 0
    else
      var front := requests[..|requests| - 1];
      Reallocations(size, front) + if requests[|requests| - 1] > Run(size, front) then 1 else 0
  }

  function Pow(b: nat, k: nat): nat {
    if k == 0 then 1 else b * Pow(b, k - 1)
  }

  /** The returned buffer holds the request exactly when no reallocation was needed or the new size did not wrap. */
  lemma BufferHoldsRequestIff(size: U32, requested: U32)
    ensures Grow(size, requested) >= requested <==> requested <= size || requested <= MAX_REQUEST
  {}

  lemma GrowthStep(size: U32, requested: U32)
    requires size < requested <= MAX_REQUEST
    ensures Grow(size, requested) == requested + requested / 2
    ensures 2 * Grow(size, requested) >= 3 * size + 2
  {}

  /** For any requests bounded by `bound`: every buffer holds its request, k reallocations grow the buffer
      by at least (3/2)^k, and the size stays within the initial size or the bound and a half. */
  lemma {:induction false} GrowthIsGeometric(size: U32, requests: seq<U32>, bound: nat)
    requires bound <= MAX_REQUEST && forall k :: 0 <= k < |requests| ==> requests[k] <= bound
    ensures requests != [] ==> Run(size, requests) >= requests[|requests| - 1]
    ensures var k := Reallocations(size, requests);
      && Pow(2, k) * Run(size, requests) >= Pow(3, k) * size
      && (if k == 0 then Run(size, requests) == size else Run(size, requests) <= bound + bound / 2)
  {
    if requests != [] {
      var front, last := requests[..|requests| - 1], requests[|requests| - 1];
      GrowthIsGeometric(size, front, bound);
      var s, k := Run(size, front), Reallocations(size, front);
      if last > s {
        GrowthStep(s, last);
        Scale(Pow(2, k), Pow(3, k), s, size, Grow(s, last));
        assert Pow(2, k + 1) == 2 * Pow(2, k) && Pow(3, k + 1) == 3 * Pow(3, k);
      }
    }
  }

  lemma Scale(p: nat, q: nat, s: nat, s0: nat, s': nat)
    requires p * s >= q * s0 && 2 * s' >= 3 * s
    ensures (2 * p) * s' >= (3 * q) * s0
  {}

  /** Hence the number of reallocations is logarithmic: 3^k * s0 cannot exceed 2^k times the bound and a half. */
  lemma ReallocationsAreLogarithmic(size: U32, requests: seq<U32>, bound: nat)
    requires bound <= MAX_REQUEST && forall k :: 0 <= k < |requests| ==> requests[k] <= bound
    ensures var k := Reallocations(size, requests);
      k > 0 ==> Pow(3, k) * size <= Pow(2, k) * (bound + bound / 2)
  {
    GrowthIsGeometric(size, requests, bound);
    var k := Reallocations(size, requests);
    if k > 0 {
      ScaleUp(Pow(2, k), Run(size, requests), bound + bound / 2);
    }
  }

  lemma ScaleUp(p: nat, a: nat, b: nat)
    requires a <= b
    ensures p * a <= p * b
  {}

  class PutFrameHelper {
    var dataBuffer: array<bv8>
    var dataBufferSize: U32

    ghost predicate Valid()
      reads this
    {
      dataBuffer.Length == dataBufferSize
    }

    /** The buffer starts at the maximum video queue size. */
    constructor (maxVideoQueueSize: U32)
      ensures Valid() && dataBufferSize == maxVideoQueueSize && fresh(dataBuffer)
    {
      dataBufferSize := maxVideoQueueSize;
      dataBuffer := new bv8[maxVideoQueueSize];
    }

    method GetFrameDataBuffer(requested: U32) returns (buffer: array<bv8>)
      requires Valid()
      modifies this
      ensures Valid() && buffer == dataBuffer && dataBufferSize == Grow(old(dataBufferSize), requested)
      ensures if requested > old(dataBufferSize) then fresh(buffer) else buffer == old(dataBuffer)
      ensures requested <= MAX_REQUEST ==> buffer.Length >= requested
    {
      BufferHoldsRequestIff(dataBufferSize, requested);
      if requested > dataBufferSize {
        dataBufferSize := Wrap32(requested + requested / 2);
        dataBuffer := new bv8[dataBufferSize];
      }
      buffer := dataBuffer;
    }
  }
}
