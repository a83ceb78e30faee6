/** The credential cache: refresh before expiry, and the arithmetic of its durations. */
module Credentials {
  import opened Words

  const NS_PER_SECOND: int := 1_000_000_000
  const UNITS_PER_SECOND: int := 10_000_000
  const MAX_SECONDS: U64 := 0xFFFF_FFFF_FFFF_FFFF

  /** Cached expiration and next rotation in seconds. `graceSeconds` is the constant grace period. */
  datatype Cache = Cache(expiration: U64, nextRotation: U64)

  /** One call: the clock in ns, whether the refresh is forced, and the expiration a fetch would set. */
  datatype Call = Call(now: U64, forced: bool, fetched: U64)

  function Init(): Cache {
    Cache(MAX_SECONDS, 0)
  }

  /** The comparison is made in the common type of both durations, unsigned nanoseconds. */
  predicate Refreshes(c: Cache, grace: U64, call: Call) {
    call.forced || Wrap64(call.now + grace * NS_PER_SECOND) > Wrap64(c.nextRotation * NS_PER_SECOND)
  }

  function Refresh(c: Cache, grace: U64, call: Call): Cache {
    if Refreshes(c, grace, call) then Cache(call.fetched, call.fetched) else c
  }

  function Run(c: Cache, grace: U64, calls: seq<Call>): Cache {
    if calls == [] then c else Refresh(Run(c, grace, calls[..|calls| - 1]), grace, calls[|calls| - 1])
  }

  predicate RefreshesAt(c: Cache, grace: U64, calls: seq<Call>, k: nat)
    requires k < |calls|
  {
    Refreshes(Run(c, grace, calls[..k]), grace, calls[k])
  }

  // ----- times that fit in 64 bits of nanoseconds ------------------------------------------------

  predicate CallFits(grace: U64, call: Call) {
    call.now + grace * NS_PER_SECOND < TWO_64 && call.fetched * NS_PER_SECOND < TWO_64
  }

  predicate AllFit(grace: U64, calls: seq<Call>) {
    forall k :: 0 <= k < |calls| ==> CallFits(grace, calls[k])
  }

  /** The clock with the grace period leaves room in 64 bits; what the provider sets is not restricted. */
  predicate ClockFits(grace: U64, calls: seq<Call>) {
    forall k :: 0 <= k < |calls| ==> calls[k].now + grace * NS_PER_SECOND < TWO_64
  }

  predicate ClockAscends(calls: seq<Call>) {
    forall i, j :: 0 <= i < j < |calls| ==> calls[i].now <= calls[j].now
  }

  /** Without wrap-around the comparison is the one of the integers. */
  lemma RefreshesExactly(c: Cache, grace: U64, call: Call)
    requires CallFits(grace, call) && c.nextRotation * NS_PER_SECOND < TWO_64
    ensures Refreshes(c, grace, call) <==>
      call.forced || call.now + grace * NS_PER_SECOND > c.nextRotation * NS_PER_SECOND
  {}

  /** The rotation time never exceeds the expiration of the cached credentials, and from the first call on
      it is that expiration. */
  lemma {:induction false} RotationIsExpiration(grace: U64, calls: seq<Call>)
    ensures var c := Run(Init(), grace, calls);
      && c.nextRotation <= c.expiration
      && (grace > 0 && ClockFits(grace, calls) && calls != [] ==> c.nextRotation == c.expiration)
  {
    if calls != [] {
      var front := calls[..|calls| - 1];
      RotationIsExpiration(grace, front);
      if ClockFits(grace, calls) {
        assert ClockFits(grace, front);
        WrapIdentity(calls[|calls| - 1].now + grace * NS_PER_SECOND);
      }
    }
  }

  lemma WrapShrinks(x: nat)
    ensures Wrap64(x) <= x
  {}

  /** On every run, each returned credential was fetched in this very call or outlives the grace period,
      whatever expiration the provider sets, the maximum included. */
  lemma ReturnedCredentialIsFresh(grace: U64, calls: seq<Call>, k: nat)
    requires ClockFits(grace, calls) && k < |calls|
    ensures var c := Run(Init(), grace, calls[..k + 1]);
      if RefreshesAt(Init(), grace, calls, k) then c.expiration == calls[k].fetched
      else calls[k].now + grace * NS_PER_SECOND <= c.expiration * NS_PER_SECOND
  {
    var front := calls[..k];
    assert calls[..k + 1][..k] == front;
    RotationIsExpiration(grace, front);
    WrapIdentity(calls[k].now + grace * NS_PER_SECOND);
    WrapShrinks(Run(Init(), grace, front).nextRotation * NS_PER_SECOND);
  }

  /** A provider that lets credentials live for a fixed time from the current second on. */
  predicate Rotates(calls: seq<Call>, lifetime: nat) {
    forall k :: 0 <= k < |calls| ==> calls[k].fetched == calls[k].now / NS_PER_SECOND + lifetime
  }

  /** The cached expiration never lags behind any earlier fetch. */
  lemma {:induction false} ExpirationCoversFetches(grace: U64, calls: seq<Call>, i: nat, j: nat, lifetime: nat)
    requires ClockAscends(calls) && Rotates(calls, lifetime)
    requires i < j <= |calls| && RefreshesAt(Init(), grace, calls, i)
    ensures calls[i].fetched <= Run(Init(), grace, calls[..j]).nextRotation
    ensures exists m :: i <= m < j && Run(Init(), grace, calls[..j]).nextRotation == calls[m].fetched
    decreases j
  {
    assert calls[..j][..j - 1] == calls[..j - 1];
    if j == i + 1 {
      assert Run(Init(), grace, calls[..j]).nextRotation == calls[i].fetched;
    } else {
      ExpirationCoversFetches(grace, calls, i, j - 1, lifetime);
      if RefreshesAt(Init(), grace, calls, j - 1) {
        assert Run(Init(), grace, calls[..j]).nextRotation == calls[j - 1].fetched;
        assert calls[i].now <= calls[j - 1].now;
      }
    }
  }

  /** Two unforced refreshes lie more than the lifetime less the grace period less one second apart,
      whatever forced refreshes happen between them. */
  lemma {:induction false} UnforcedRefreshesAreSpread(grace: U64, calls: seq<Call>, i: nat, j: nat, lifetime: nat)
    requires AllFit(grace, calls) && ClockAscends(calls) && Rotates(calls, lifetime)
    requires i < j < |calls| && !calls[j].forced
    requires RefreshesAt(Init(), grace, calls, i) && RefreshesAt(Init(), grace, calls, j)
    ensures calls[j].now - calls[i].now > (lifetime - grace - 1) * NS_PER_SECOND
  {
    ExpirationCoversFetches(grace, calls, i, j, lifetime);
    var c := Run(Init(), grace, calls[..j]);
    var m :| i <= m < j && c.nextRotation == calls[m].fetched;
    assert CallFits(grace, calls[m]);
    RefreshesExactly(c, grace, calls[j]);
  }

  // ----- maximum expiration ----------------------------------------------------------------------

  /** chrono::seconds holds a signed count; the unsigned maximum passes through -1. */
  lemma MaximumPassesThroughMinusOne()
    ensures AsSigned(MAX_SECONDS) == -1 && AsUnsigned(-1) == MAX_SECONDS
  {}

  /** Scaling the maximum by any unit wraps to the unit's distance below 2^64. */
  lemma ScaledMaximum(k: int)
    requires 1 <= k <= TWO_64
    ensures Wrap64(AsUnsigned(AsSigned(MAX_SECONDS)) * k) == TWO_64 - k
  {}

  /** What the token callbacks report, in units of 100 ns. */
  function ReportedExpiration(expiration: U64): U64 {
    Wrap64(expiration * UNITS_PER_SECOND)
  }

  lemma StaticExpirationReported()
    ensures ReportedExpiration(MAX_SECONDS) == TWO_64 - 10_000_000
  {}

  predicate Static(calls: seq<Call>) {
    forall k :: 0 <= k < |calls| ==> calls[k].fetched == MAX_SECONDS
  }

  lemma RefreshesStaticIff(grace: U64, call: Call)
    ensures Refreshes(Cache(MAX_SECONDS, MAX_SECONDS), grace, call) <==>
      call.forced || Wrap64(call.now + grace * NS_PER_SECOND) > TWO_64 - NS_PER_SECOND
  {}

  function Fetches(c: Cache, grace: U64, calls: seq<Call>): nat {
    if calls == [] then 0
    else Fetches(c, grace, calls[..|calls| - 1]) + if RefreshesAt(c, grace, calls, |calls| - 1) then 1 else 0
  }

  function Forced(calls: seq<Call>): nat {
    if calls == [] then 0 else Forced(calls[..|calls| - 1]) + if calls[|calls| - 1].forced then 1 else 0
  }

  /** Static credentials are fetched by the first call and by the forced ones, and by no other, for every
      clock value that leaves a second of room below 2^64 ns; the wrapped maximum still compares as the far
      future. */
  lemma {:induction false} StaticCredentialsFetchedOnce(grace: U64, calls: seq<Call>)
    requires grace > 0 && Static(calls)
    requires forall k :: 0 <= k < |calls| ==> calls[k].now + grace * NS_PER_SECOND <= TWO_64 - NS_PER_SECOND
    ensures Fetches(Init(), grace, calls) == Forced(calls) + if calls != [] && !calls[0].forced then 1 else 0
    ensures calls != [] ==> Run(Init(), grace, calls) == Cache(MAX_SECONDS, MAX_SECONDS)
  {
    if calls != [] {
      var front, call := calls[..|calls| - 1], calls[|calls| - 1];
      StaticCredentialsFetchedOnce(grace, front);
      WrapIdentity(call.now + grace * NS_PER_SECOND);
      if front != [] {
        RefreshesStaticIff(grace, call);
      }
    }
  }

  // ----- the provider as written -----------------------------------------------------------------

  class CredentialProvider {
    const grace: U64
    var expiration: U64
    var nextRotation: U64

    ghost function Contents(): Cache
      reads this
    {
      Cache(expiration, nextRotation)
    }

    constructor (grace: U64)
      ensures this.grace == grace && Contents() == Init()
    {
      this.grace, expiration, nextRotation := grace, MAX_SECONDS, 0;
    }

    method RefreshCredentials(now: U64, forced: bool, fetched: U64)
      modifies this
      ensures Contents() == Refresh(old(Contents()), grace, Call(now, forced, fetched))
    {
      if forced || Wrap64(now + grace * NS_PER_SECOND) > Wrap64(nextRotation * NS_PER_SECOND) {
        expiration := fetched;
        nextRotation := expiration;
      }
    }

    method GetCredentials(now: U64, fetched: U64) returns (current: U64)
      modifies this
      ensures Contents() == Refresh(old(Contents()), grace, Call(now, false, fetched)) && current == expiration
    {
      RefreshCredentials(now, false, fetched);
      current := expiration;
    }

    method GetUpdatedCredentials(now: U64, fetched: U64) returns (current: U64)
      modifies this
      ensures Contents() == Refresh(old(Contents()), grace, Call(now, true, fetched)) && current == expiration
      ensures current == fetched
    {
      RefreshCredentials(now, true, fetched);
      current := expiration;
    }
  }
}
