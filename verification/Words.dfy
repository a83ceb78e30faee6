/** Fixed-width integers, the units of time, and the library's tri-state view of a status code. */
module Words {
  const TWO_32: int := 0x1_0000_0000
  const TWO_63: int := 0x8000_0000_0000_0000
  const TWO_64: int := 0x1_0000_0000_0000_0000

  type U32 = x: int | 0 <= x < TWO_32
  type U64 = x: int | 0 <= x < TWO_64
  type I64 = x: int | -TWO_63 <= x < TWO_63

  const NS_PER_UNIT: int := 100          // one producer time unit
  const NS_PER_MS: int := 1_000_000      // also the timecode scale
  const CLOCK_TIME_NONE: U64 := 0xFFFF_FFFF_FFFF_FFFF

  datatype Option<+T> = None | Some(value: T)

  /** What the error macros of the producer library reveal about a status code. */
  datatype Status = Status(failed: bool, retriable: bool, recoverable: bool)

  const STATUS_SUCCESS: Status := Status(false, false, false)

  function Max(a: int, b: int): int {
    if a > b then a else b
  }

  function Wrap32(x: int): U32 {
    x % TWO_32
  }

  function Wrap64(x: int): U64 {
    x % TWO_64
  }

  /** Conversion of a uint64_t to the signed representation of chrono::nanoseconds. */
  function AsSigned(x: U64): I64 {
    if x < TWO_63 then x else x - TWO_64
  }

  function AsUnsigned(x: I64): U64 {
    Wrap64(x)
  }

  /** Time units of a nanosecond stamp after it has travelled through chrono::nanoseconds. */
  function ToUnits(ns: U64): nat {
    AsUnsigned(AsSigned(ns)) / NS_PER_UNIT
  }

  lemma WrapIdentity(x: int)
    requires 0 <= x < TWO_64
    ensures Wrap64(x) == x
  {}

  lemma Wrap32Identity(x: int)
    requires 0 <= x < TWO_32
    ensures Wrap32(x) == x
  {}

  lemma Wrap32Pred(x: int)
    ensures Wrap32(Wrap32(x) - 1) == Wrap32(x - 1)
  {}

  lemma WrapAdds(x: int, y: int)
    ensures Wrap64(Wrap64(x) + y) == Wrap64(x + y)
  {}

  /** The trip through the signed type loses nothing: a stamp in units is its nanoseconds floored. */
  lemma SignedTripIsExact(ns: U64)
    ensures AsUnsigned(AsSigned(ns)) == ns
    ensures ToUnits(ns) == ns / NS_PER_UNIT
  {}

  /** Wrapped to 64 bits and floored to units, a time keeps its value exactly if it was a 64-bit time. */
  lemma WrappedUnitsExactIffInRange(t: int)
    requires -TWO_64 <= t < 2 * TWO_64
    ensures ToUnits(Wrap64(t)) == t / NS_PER_UNIT <==> 0 <= t < TWO_64
  {}

  /** A gap of one millisecond survives both roundings. */
  lemma MillisecondGapSurvivesFlooring(a: nat, b: nat)
    requires a + NS_PER_MS <= b
    ensures a / NS_PER_UNIT < b / NS_PER_UNIT
    ensures a / NS_PER_MS < b / NS_PER_MS
  {}

  lemma Pick<T>(s: set<T>) returns (x: T)
    requires s != {}
    ensures x in s
  {
    x :| x in s;
  }

  // ----- iteration order of ordered maps ---------------------------------------------------------

  ghost predicate IsLeast(s: set<int>, t: int) {
    t in s && forall u :: u in s ==> t <= u
  }

  lemma {:induction false} LeastExists(s: set<int>)
    requires s != {}
    ensures exists t :: IsLeast(s, t)
  {
    var x := Pick(s);
    if s == {x} {
      assert IsLeast(s, x);
    } else {
      assert s - {x} != {};
      LeastExists(s - {x});
      var y :| IsLeast(s - {x}, y);
      var z := if x < y then x else y;
      forall u | u in s
        ensures z <= u
      {
        if u != x {
          assert u in s - {x};
        }
      }
      assert IsLeast(s, z);
    }
  }

  /** The key an iterator of an ordered map meets first. */
  function Least(s: set<int>): (t: int)
    requires s != {}
    ensures IsLeast(s, t)
  {
    LeastExists(s);
    var t :| t in s && forall u :: u in s ==> t <= u;
    t
  }
}
