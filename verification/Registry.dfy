/** Streams of a producer: creation, the once-only release of the native stream, and the handle registry. */
module Registry {
  import opened Words
  import opened ThreadSafeMaps

  const INVALID_HANDLE: int := 0

  /** A stream object: its native handle and whether its once-flag is spent. */
  datatype Stream = Stream(handle: int, freed: bool)

  /** One call of the native release; `wasLive` says the handle named an existing native stream. */
  datatype Release = Release(stream: nat, handle: int, wasLive: bool)

  /** Stream objects by creation order, the registry, and the native streams alive in the library. */
  datatype Producer = Producer(streams: seq<Stream>, active: map<int, nat>, live: set<int>, releases: seq<Release>)

  /** Drop: the last outside reference to a stream object goes away. */
  datatype Op = Create(handle: int, ok: bool) | FreeStream(stream: Option<nat>) | Drop(dropped: nat) | FreeStreams

  function Init(): Producer {
    Producer([], map[], {}, [])
  }

  /** The once-only free of a stream object; the native call invalidates the handle. */
  function Free(p: Producer, s: nat): Producer
    requires s < |p.streams|
  {
    if p.streams[s].freed then p
    else
      var h := p.streams[s].handle;
      p.(streams := p.streams[s := Stream(INVALID_HANDLE, true)],
         live := p.live - {h},
         releases := p.releases + [Release(s, h, h in p.live)])
  }

  function Created(p: Producer, handle: int, ok: bool): Producer {
    var s := |p.streams|;
    if !ok then Free(p.(streams := p.streams + [Stream(INVALID_HANDLE, false)]), s)
    else p.(streams := p.streams + [Stream(handle, false)],
            active := if handle in p.active then p.active else p.active[handle := s],
            live := p.live + {handle})
  }

  function FreeOne(p: Producer, s: nat): Producer
    requires s < |p.streams|
  {
    var h := p.streams[s].handle;
    var p' := Free(p, s);
    p'.(active := p'.active - {h})
  }

  function FreeMany(p: Producer, n: nat): Producer
    decreases n
  {
    var first := At(p.active, 0);
    if n == 0 || first.None? || first.value >= |p.streams| then p else FreeMany(FreeOne(p, first.value), n - 1)
  }

  predicate Registered(p: Producer, s: nat) {
    exists h :: h in p.active && p.active[h] == s
  }

  function Step(p: Producer, op: Op): Producer {
    match op
    case Create(handle, ok) => Created(p, handle, ok)
    case FreeStream(None) => p
    case FreeStream(Some(s)) => if s < |p.streams| then FreeOne(p, s) else p
    case Drop(s) => if s < |p.streams| && !Registered(p, s) then Free(p, s) else p
    case FreeStreams => FreeMany(p, |p.active|)
  }

  /** The library hands out handles that name no live stream and are not the invalid one. */
  predicate OpOk(p: Producer, op: Op) {
    op.Create? && op.ok ==> op.handle != INVALID_HANDLE && op.handle !in p.live
  }

  function Run(p: Producer, ops: seq<Op>): Producer {
    if ops == [] then p else Step(Run(p, ops[..|ops| - 1]), ops[|ops| - 1])
  }

  predicate OkRun(p: Producer, ops: seq<Op>) {
    ops == [] || (OkRun(p, ops[..|ops| - 1]) && OpOk(Run(p, ops[..|ops| - 1]), ops[|ops| - 1]))
  }

  // ----- the invariant ---------------------------------------------------------------------------

  ghost predicate EntryOk(p: Producer, h: int) {
    h in p.active && h != INVALID_HANDLE && p.active[h] < |p.streams| && p.streams[p.active[h]] == Stream(h, false)
  }

  ghost predicate StreamOk(p: Producer, s: nat)
    requires s < |p.streams|
  {
    if p.streams[s].freed then p.streams[s].handle == INVALID_HANDLE
    else p.streams[s].handle in p.active && p.active[p.streams[s].handle] == s
  }

  ghost predicate ReleaseOk(p: Producer, r: Release) {
    r.stream < |p.streams| && p.streams[r.stream].freed && (r.wasLive || r.handle == INVALID_HANDLE)
  }

  /** Keys are the handles of their streams, exactly the live native streams are registered, and each
      stream object has released at most once, and only a live native stream. */
  ghost predicate RegInv(p: Producer) {
    && p.live == p.active.Keys
    && (forall h :: h in p.active ==> EntryOk(p, h))
    && (forall s :: 0 <= s < |p.streams| ==> StreamOk(p, s))
    && (forall k :: 0 <= k < |p.releases| ==> ReleaseOk(p, p.releases[k]))
    && (forall i, j :: 0 <= i < j < |p.releases| ==> p.releases[i].stream != p.releases[j].stream)
  }

  lemma FreeOneKeepsInv(p: Producer, s: nat)
    requires RegInv(p) && s < |p.streams|
    ensures var p' := FreeOne(p, s);
      && RegInv(p') && |p'.streams| == |p.streams|
      && p'.active == (if p.streams[s].freed then p.active else p.active - {p.streams[s].handle})
      && p'.releases == (if p.streams[s].freed then p.releases else p.releases + [Release(s, p.streams[s].handle, true)])
  {
    var p' := FreeOne(p, s);
    assert StreamOk(p, s);
    if p.streams[s].freed {
      assert INVALID_HANDLE in p.active ==> EntryOk(p, INVALID_HANDLE);
      assert p'.active == p.active;
    } else {
      var h := p.streams[s].handle;
      assert EntryOk(p, h);
      forall g | g in p'.active
        ensures EntryOk(p', g)
      {
        assert EntryOk(p, g);
      }
      forall t | 0 <= t < |p'.streams|
        ensures StreamOk(p', t)
      {
        assert StreamOk(p, t);
      }
      forall k | 0 <= k < |p'.releases|
        ensures ReleaseOk(p', p'.releases[k])
      {
        if k < |p.releases| { assert ReleaseOk(p, p.releases[k]); }
      }
    }
  }

  lemma CreateKeepsInv(p: Producer, handle: int, ok: bool)
    requires RegInv(p) && OpOk(p, Create(handle, ok))
    ensures RegInv(Created(p, handle, ok))
  {
    var p' := Created(p, handle, ok);
    forall h | h in p'.active
      ensures EntryOk(p', h)
    {
      if h in p.active { assert EntryOk(p, h); }
    }
    forall t | 0 <= t < |p'.streams|
      ensures StreamOk(p', t)
    {
      if t < |p.streams| { assert StreamOk(p, t); }
    }
    forall k | 0 <= k < |p'.releases|
      ensures ReleaseOk(p', p'.releases[k])
    {
      if k < |p.releases| { assert ReleaseOk(p, p.releases[k]); }
    }
    assert INVALID_HANDLE in p.active ==> EntryOk(p, INVALID_HANDLE);
    assert p'.live == p'.active.Keys;
  }

  /** One iteration of the mass free. */
  ghost function FreeFirst(p: Producer): Producer
    requires RegInv(p) && p.active != map[]
  {
    assert EntryOk(p, Least(p.active.Keys));
    FreeOne(p, p.active[Least(p.active.Keys)])
  }

  lemma FreeFirstTakesOne(p: Producer)
    requires RegInv(p) && 0 < |p.active|
    ensures RegInv(FreeFirst(p)) && TookOff(p, FreeFirst(p), 1)
  {
    assert p.active != map[];
    var h := Least(p.active.Keys);
    assert EntryOk(p, h);
    FreeOneKeepsInv(p, p.active[h]);
    assert FreeFirst(p).active == p.active - {h};
    assert FreeFirst(p).active.Keys == p.active.Keys - {h};
  }

  /** From p to q, n entries left the registry and n native streams were released. */
  ghost predicate TookOff(p: Producer, q: Producer, n: nat) {
    && |q.streams| == |p.streams|
    && |q.active| == |p.active| - n
    && |q.releases| == |p.releases| + n && p.releases <= q.releases
  }

  lemma FreeManyUnrolls(p: Producer, n: nat)
    requires RegInv(p) && 0 < n <= |p.active|
    ensures FreeMany(p, n) == FreeMany(FreeFirst(p), n - 1)
  {}

  /** Freeing everything takes one entry and one native release per iteration. */
  lemma {:induction false} FreeManyTakesOff(p: Producer, n: nat, q: Producer)
    requires RegInv(p) && n <= |p.active| && q == FreeMany(p, n)
    ensures RegInv(q) && TookOff(p, q, n)
    decreases n
  {
    if n > 0 {
      FreeFirstTakesOne(p);
      FreeManyUnrolls(p, n);
      FreeManyTakesOff(FreeFirst(p), n - 1, q);
    }
  }

  lemma StepKeepsInv(p: Producer, op: Op)
    requires RegInv(p) && OpOk(p, op)
    ensures RegInv(Step(p, op))
  {
    match op
    case Create(handle, ok) => CreateKeepsInv(p, handle, ok);
    case FreeStream(None) =>
    case FreeStream(Some(s)) => if s < |p.streams| { FreeOneKeepsInv(p, s); }
    case FreeStreams => FreeManyTakesOff(p, |p.active|, FreeMany(p, |p.active|));
    case Drop(s) =>
      if s < |p.streams| && !Registered(p, s) {
        assert StreamOk(p, s);
        assert p.streams[s].freed by {
          if !p.streams[s].freed { assert Registered(p, s); }
        }
      }
  }

  // ----- main results ----------------------------------------------------------------------------

  /** Registry safety over every run of creations, repeated frees, drops and mass frees. */
  lemma {:induction false} RegistryIsSafe(ops: seq<Op>)
    requires OkRun(Init(), ops)
    ensures RegInv(Run(Init(), ops))
  {
    if ops != [] {
      RegistryIsSafe(ops[..|ops| - 1]);
      StepKeepsInv(Run(Init(), ops[..|ops| - 1]), ops[|ops| - 1]);
    }
  }

  /** The destructor's mass free leaves no native stream, with one release per registered stream, and
      later frees and drops of any stream object release nothing more. */
  lemma {:induction false} MassFreeIsFinal(ops: seq<Op>, s: nat)
    requires OkRun(Init(), ops)
    ensures var p := Run(Init(), ops);
      var p' := Step(p, FreeStreams);
      && p'.active == map[] && p'.live == {}
      && |p'.releases| == |p.releases| + |p.active|
      && (s < |p'.streams| ==> p'.streams[s].freed)
      && Step(p', FreeStream(Some(s))) == p'
      && Step(p', Drop(s)) == p'
      && Step(p', FreeStreams) == p'
  {
    var p := Run(Init(), ops);
    RegistryIsSafe(ops);
    FreeManyTakesOff(p, |p.active|, FreeMany(p, |p.active|));
    var p' := Step(p, FreeStreams);
    assert |p'.active| == 0 && p'.active == map[];
    if s < |p'.streams| {
      assert StreamOk(p', s);
      FreeOneKeepsInv(p', s);
      assert p'.active - {p'.streams[s].handle} == p'.active;
    }
  }

  /** Freeing the same stream twice is freeing it once. */
  lemma FreeTwiceIsFreeOnce(ops: seq<Op>, s: nat)
    requires OkRun(Init(), ops)
    ensures var p := Step(Run(Init(), ops), FreeStream(Some(s))); Step(p, FreeStream(Some(s))) == p
  {
    RegistryIsSafe(ops);
    var p0 := Run(Init(), ops);
    if s < |p0.streams| {
      FreeOneKeepsInv(p0, s);
      assert StreamOk(p0, s);
      var p := FreeOne(p0, s);
      assert p.streams[s].freed;
      FreeOneKeepsInv(p, s);
    }
  }

  /** Because put is an emplace, a new stream is registered exactly when its handle is not in use. */
  lemma CreatedStreamIsRegisteredIffFresh(ops: seq<Op>, handle: int)
    requires OkRun(Init(), ops)
    ensures var p := Run(Init(), ops);
      Registered(Created(p, handle, true), |p.streams|) <==> handle !in p.live
  {
    RegistryIsSafe(ops);
    var p := Run(Init(), ops);
    var p' := Created(p, handle, true);
    if handle !in p.live {
      assert p'.active[handle] == |p.streams|;
    } else {
      forall h | h in p'.active
        ensures p'.active[h] != |p.streams|
      {
        assert EntryOk(p, h);
      }
    }
  }

  /** A creation that fails registers nothing and lets no native stream go: it only leaves a spent object. */
  lemma FailedCreationLeavesNoTrace(ops: seq<Op>, handle: int)
    requires OkRun(Init(), ops)
    ensures var p := Run(Init(), ops); var p' := Created(p, handle, false);
      && p'.active == p.active && p'.live == p.live
      && p'.streams == p.streams + [Stream(INVALID_HANDLE, true)]
      && p'.releases == p.releases + [Release(|p.streams|, INVALID_HANDLE, false)]
  {
    var p := Run(Init(), ops);
    RegistryIsSafe(ops);
    assert INVALID_HANDLE in p.active ==> EntryOk(p, INVALID_HANDLE);
    assert p.live - {INVALID_HANDLE} == p.live;
  }

  // ----- the producer as written -----------------------------------------------------------------

  class KinesisVideoProducer {
    const activeStreams: ThreadSafeMap<nat>
    var streams: seq<Stream>
    var live: set<int>
    ghost var releases: seq<Release>

    ghost function Contents(): Producer
      reads this, activeStreams
    {
      Producer(streams, activeStreams.map_, live, releases)
    }

    constructor ()
      ensures Contents() == Init() && fresh(activeStreams)
    {
      activeStreams := new ThreadSafeMap<nat>();
      streams, live, releases := [], {}, [];
    }

    method FreeObject(s: nat)
      requires s < |streams|
      modifies this
      ensures Contents() == Free(old(Contents()), s)
    {
      if !streams[s].freed {
        var h := streams[s].handle;
        releases := releases + [Release(s, h, h in live)];
        live := live - {h};
        streams := streams[s := Stream(INVALID_HANDLE, true)];
      }
    }

    method CreateStream(handle: int, ok: bool) returns (stream: Option<nat>)
      modifies this, activeStreams
      ensures Contents() == Created(old(Contents()), handle, ok)
      ensures stream == if ok then Some(old(|streams|)) else None
    {
      var s := |streams|;
      if !ok {
        streams := streams + [Stream(INVALID_HANDLE, false)];
        FreeObject(s);
        return None;
      }
      streams := streams + [Stream(handle, false)];
      live := live + {handle};
      activeStreams.Put(handle, s);
      stream := Some(s);
    }

    method FreeStream(stream: Option<nat>) returns (threw: bool)
      requires stream.Some? ==> stream.value < |streams|
      modifies this, activeStreams
      ensures threw == stream.None?
      ensures Contents() == if stream.None? then old(Contents()) else FreeOne(old(Contents()), stream.value)
    {
      if stream.None? {
        return true;
      }
      var h := streams[stream.value].handle;
      FreeObject(stream.value);
      activeStreams.Remove(h);
      threw := false;
    }

    /** One iteration: free the stream an iterator of the registry meets first. */
    method FreeFirstStream()
      requires RegInv(Contents()) && 0 < |activeStreams.map_|
      modifies this, activeStreams
      ensures RegInv(Contents()) && Contents() == FreeFirst(old(Contents())) && TookOff(old(Contents()), Contents(), 1)
    {
      ghost var p := Contents();
      assert p.active != map[];
      assert EntryOk(p, Least(p.active.Keys));
      FreeFirstTakesOne(p);
      var stream := activeStreams.GetAt(0);
      var _ := FreeStream(stream);
    }

    method FreeStreams()
      requires RegInv(Contents())
      modifies this, activeStreams
      ensures Contents() == FreeMany(old(Contents()), |old(activeStreams.map_)|)
      ensures activeStreams.map_ == map[] && RegInv(Contents())
    {
      var count := |activeStreams.map_|;
      ghost var p0 := Contents();
      FreeManyTakesOff(p0, count, FreeMany(p0, count));
      for i := 0 to count
        invariant RegInv(Contents()) && |activeStreams.map_| == count - i
        invariant FreeMany(Contents(), count - i) == FreeMany(p0, count)
      {
        FreeManyUnrolls(Contents(), count - i);
        FreeFirstStream();
      }
    }
  }
}
