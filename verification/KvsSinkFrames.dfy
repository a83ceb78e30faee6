/** The frame path of the sink element: timestamps, decoding times, key-frame flags, indices and metrics. */
module KvsSinkFrames {
  import opened Words

  const DTS_STEP: int := 2 * NS_PER_MS   // frame duration of 2 ms

  datatype MediaType = AudioVideo | VideoOnly | AudioOnly

  datatype TrackKind = Video | Audio

  datatype Config = Config(offline: bool, useOriginalPts: bool, getMetrics: bool, media: MediaType, ptsBase: U64)

  /** A buffer with the kind and the track id of the pad it arrives on. */
  datatype Buffer = Buffer(corrupted: bool, decodeOnly: bool, discont: bool, delta: bool, header: bool,
                           otherFlags: bool, pts: U64, dts: U64, mappable: bool, kind: TrackKind, trackId: nat)

  /** Shared frame state of the element, from one NULL to READY transition to the next. */
  datatype Data = Data(lastDts: U64, firstPts: U64, startTime: U64, frameCount: U32, onFirstFrame: bool)

  datatype Frame = Frame(key: bool, index: U32, decodingTs: nat, presentationTs: nat, trackId: nat)

  datatype Metric = Metric(framePts: nat, onFirstFrame: bool)

  /** What one buffer made the element do. `putOk` is the producer's answer, chosen by the environment. */
  datatype Effect = Effect(data: Data, frame: Option<Frame>, metric: Option<Metric>)

  predicate Droppable(b: Buffer) {
    || b.corrupted
    || b.decodeOnly
    || (b.discont && !b.delta && !b.header && !b.otherFlags)
    || (b.discont && b.delta)
    || (b.header && (b.pts == CLOCK_TIME_NONE || b.dts == CLOCK_TIME_NONE))
  }

  predicate IsKey(c: Config, b: Buffer) {
    !b.delta && (c.media.AudioVideo? ==> b.kind.Video?)
  }

  /** Decoding time written to the buffer before it is mapped. */
  function DtsOf(c: Config, d: Data, b: Buffer): U64 {
    if c.offline then (if c.useOriginalPts then b.dts else 0)
    else if b.dts == CLOCK_TIME_NONE then Wrap64(d.lastDts + DTS_STEP)
    else b.dts
  }

  /** The first mapped buffer of a realtime session latches its presentation time and the clock. */
  function Latch(c: Config, d: Data, b: Buffer, now: U64): Data {
    if c.offline then d
    else d.(firstPts := if d.firstPts == CLOCK_TIME_NONE then b.pts else d.firstPts,
            startTime := if d.startTime == CLOCK_TIME_NONE then now else d.startTime)
  }

  function PtsOf(c: Config, d: Data, b: Buffer, dts: U64): U64 {
    if c.useOriginalPts then dts
    else if c.offline then Wrap64(b.pts + c.ptsBase)
    else Wrap64(b.pts + d.startTime - d.firstPts)
  }

  function PutEffect(c: Config, d: Data, f: Frame, putOk: bool): (Data, Option<Metric>) {
    if c.getMetrics && putOk && (f.key || d.onFirstFrame) then
      (d.(onFirstFrame := false), Some(Metric(f.presentationTs, d.onFirstFrame)))
    else (d, None)
  }

  function BufferEffect(c: Config, d: Data, b: Buffer, now: U64, putOk: bool): Effect {
    if Droppable(b) then Effect(d, None, None)
    else
      var dts := DtsOf(c, d, b);
      var d1 := d.(lastDts := dts);
      if !b.mappable then Effect(d1, None, None)
      else
        var d2 := Latch(c, d1, b, now);
        var f := Frame(IsKey(c, b), d.frameCount, ToUnits(dts), ToUnits(PtsOf(c, d2, b, dts)), b.trackId);
        var (d3, metric) := PutEffect(c, d2, f, putOk);
        Effect(d3.(frameCount := Wrap32(d.frameCount + 1)), Some(f), metric)
  }

  /** State after a successful NULL to READY transition. */
  function Ready(d: Data): Data {
    d.(firstPts := CLOCK_TIME_NONE, startTime := CLOCK_TIME_NONE, frameCount := 0)
  }

  function Fresh(): Data {
    Data(0, CLOCK_TIME_NONE, CLOCK_TIME_NONE, 0, true)
  }

  // ----- runs ------------------------------------------------------------------------------------

  datatype Arrival = Arrival(buffer: Buffer, now: U64, putOk: bool)

  function Run(c: Config, d: Data, arrivals: seq<Arrival>): Data {
    if arrivals == [] then d
    else
      var a := arrivals[|arrivals| - 1];
      BufferEffect(c, Run(c, d, arrivals[..|arrivals| - 1]), a.buffer, a.now, a.putOk).data
  }

  /** What the k-th buffer of a run did. */
  function EffectAt(c: Config, d: Data, arrivals: seq<Arrival>, k: nat): Effect
    requires k < |arrivals|
  {
    BufferEffect(c, Run(c, d, arrivals[..k]), arrivals[k].buffer, arrivals[k].now, arrivals[k].putOk)
  }

  lemma RunStep(c: Config, d: Data, arrivals: seq<Arrival>, k: nat)
    requires k < |arrivals|
    ensures Run(c, d, arrivals[..k + 1]) == EffectAt(c, d, arrivals, k).data
  {
    assert arrivals[..k + 1][..k] == arrivals[..k];
  }

  // ----- which buffers become frames -------------------------------------------------------------

  /** Exactly these buffers are put: intact ones that can be mapped, headers only with both times, and at a
      discontinuity only a buffer that is no delta and is marked as something else besides. Other buffers
      that can be mapped leave no trace at all. */
  lemma PutIff(c: Config, d: Data, a: Arrival)
    ensures var e := BufferEffect(c, d, a.buffer, a.now, a.putOk); var b := a.buffer;
      && (e.frame.Some? <==>
            && b.mappable && !b.corrupted && !b.decodeOnly
            && (b.header ==> b.pts != CLOCK_TIME_NONE && b.dts != CLOCK_TIME_NONE)
            && (b.discont ==> !b.delta && (b.header || b.otherFlags)))
      && (e.frame.None? && b.mappable ==> e == Effect(d, None, None))
      && (!b.mappable ==> e.metric.None? && e.data == d.(lastDts := e.data.lastDts))
  {}

  /** A frame keeps the track of its pad; it starts a fragment if it is no delta, but audio beside video
      never does. Its signal, if metrics are on, carries its own time. */
  lemma FrameIdentity(c: Config, d: Data, a: Arrival)
    requires BufferEffect(c, d, a.buffer, a.now, a.putOk).frame.Some?
    ensures var e := BufferEffect(c, d, a.buffer, a.now, a.putOk); var f := e.frame.value;
      && f.trackId == a.buffer.trackId && f.index == d.frameCount
      && (f.key <==> !a.buffer.delta && !(c.media.AudioVideo? && a.buffer.kind.Audio?))
      && (e.metric.Some? <==> c.getMetrics && a.putOk && (f.key || d.onFirstFrame))
      && (e.metric.Some? ==> e.metric.value == Metric(f.presentationTs, d.onFirstFrame))
  {}

  /** With the buffers' own times both times of a frame are its decoding time, or, where that is missing in
      realtime, 2 ms after the last one; neither the clock nor the presentation time plays a part. */
  lemma OriginalTimes(c: Config, d: Data, a: Arrival)
    requires c.useOriginalPts && BufferEffect(c, d, a.buffer, a.now, a.putOk).frame.Some?
    requires a.buffer.dts == CLOCK_TIME_NONE && !c.offline ==> d.lastDts + DTS_STEP < TWO_64
    ensures var f := BufferEffect(c, d, a.buffer, a.now, a.putOk).frame.value;
      f.presentationTs == f.decodingTs ==
        (if a.buffer.dts == CLOCK_TIME_NONE && !c.offline then d.lastDts + DTS_STEP else a.buffer.dts) / NS_PER_UNIT
  {
    SignedTripIsExact(DtsOf(c, d, a.buffer));
  }

  // ----- presentation times: one translation per session -----------------------------------------

  predicate Mapped(b: Buffer) { !Droppable(b) && b.mappable }

  predicate HasPts(b: Buffer) { Mapped(b) && b.pts != CLOCK_TIME_NONE }

  predicate ValidClocks(arrivals: seq<Arrival>) {
    forall k :: 0 <= k < |arrivals| && Mapped(arrivals[k].buffer) ==> arrivals[k].now != CLOCK_TIME_NONE
  }

  /** Position of the first arrival whose buffer satisfies p, or the length of the run. */
  function First(arrivals: seq<Arrival>, p: Buffer -> bool): (k: nat)
    ensures k <= |arrivals|
    ensures k < |arrivals| ==> p(arrivals[k].buffer)
    ensures forall j :: 0 <= j < k ==> !p(arrivals[j].buffer)
  {
    if arrivals == [] then 0
    else
      var k := First(arrivals[..|arrivals| - 1], p);
      if k < |arrivals| - 1 || p(arrivals[|arrivals| - 1].buffer) then k else |arrivals|
  }

  /** The buffer that latches the clock, and the one that latches the presentation time: a mapped buffer
      without a valid presentation time does the first but not the second. */
  function FirstMapped(arrivals: seq<Arrival>): nat { First(arrivals, Mapped) }

  function FirstTimed(arrivals: seq<Arrival>): nat { First(arrivals, HasPts) }

  lemma {:induction false} LatchedOnce(c: Config, d: Data, arrivals: seq<Arrival>)
    requires !c.offline && ValidClocks(arrivals)
    requires d.firstPts == d.startTime == CLOCK_TIME_NONE
    ensures var d' := Run(c, d, arrivals);
      var m, t := FirstMapped(arrivals), FirstTimed(arrivals);
      && d'.startTime == (if m == |arrivals| then CLOCK_TIME_NONE else arrivals[m].now)
      && d'.firstPts == (if t == |arrivals| then CLOCK_TIME_NONE else arrivals[t].buffer.pts)
  {
    if arrivals != [] {
      var front := arrivals[..|arrivals| - 1];
      assert ValidClocks(front);
      LatchedOnce(c, d, front);
    }
  }

  lemma FirstOfPrefix(arrivals: seq<Arrival>, p: Buffer -> bool, k: nat)
    requires k < |arrivals| && p(arrivals[k].buffer)
    ensures First(arrivals, p) == First(arrivals[..k], p) <= k
  {
    var i, j := First(arrivals, p), First(arrivals[..k], p);
    assert i <= k;
    if i < k {
      assert p(arrivals[..k][i].buffer);
    }
    if j < k {
      assert p(arrivals[..k][j].buffer) && p(arrivals[j].buffer);
    }
  }

  lemma LatchedAt(c: Config, d: Data, arrivals: seq<Arrival>, k: nat)
    requires !c.offline && ValidClocks(arrivals) && k < |arrivals| && HasPts(arrivals[k].buffer)
    requires d.firstPts == d.startTime == CLOCK_TIME_NONE
    ensures FirstMapped(arrivals) <= FirstTimed(arrivals) <= k
    ensures var latched := Latch(c, Run(c, d, arrivals[..k]), arrivals[k].buffer, arrivals[k].now);
      latched.firstPts == arrivals[FirstTimed(arrivals)].buffer.pts && latched.startTime == arrivals[FirstMapped(arrivals)].now
  {
    assert ValidClocks(arrivals[..k]);
    LatchedOnce(c, d, arrivals[..k]);
    FirstOfPrefix(arrivals, Mapped, k);
    FirstOfPrefix(arrivals, HasPts, k);
    assert Mapped(arrivals[FirstTimed(arrivals)].buffer);
  }

  function FromOrigin(start: U64, first: U64, pts: U64): (t: int)
    ensures -TWO_64 <= t < 2 * TWO_64
  {
    pts + start - first
  }

  /** The integer time, in ns, the session's translation gives to a presentation time. */
  function Translated(arrivals: seq<Arrival>, pts: U64): (t: int)
    requires FirstMapped(arrivals) < |arrivals| && FirstTimed(arrivals) < |arrivals|
    ensures -TWO_64 <= t < 2 * TWO_64
  {
    FromOrigin(arrivals[FirstMapped(arrivals)].now, arrivals[FirstTimed(arrivals)].buffer.pts, pts)
  }

  lemma RealtimePts(c: Config, d: Data, a: Arrival, start: U64, first: U64)
    requires !c.offline && !c.useOriginalPts && Mapped(a.buffer)
    requires Latch(c, d, a.buffer, a.now).firstPts == first
    requires Latch(c, d, a.buffer, a.now).startTime == start
    ensures var e := BufferEffect(c, d, a.buffer, a.now, a.putOk);
      e.frame.Some? && e.frame.value.presentationTs == ToUnits(Wrap64(FromOrigin(start, first, a.buffer.pts)))
  {}

  lemma StampedFromOrigin(c: Config, d: Data, arrivals: seq<Arrival>, k: nat)
    requires !c.offline && !c.useOriginalPts && ValidClocks(arrivals) && k < |arrivals| && HasPts(arrivals[k].buffer)
    requires d.firstPts == d.startTime == CLOCK_TIME_NONE
    ensures FirstMapped(arrivals) <= FirstTimed(arrivals) < |arrivals| && EffectAt(c, d, arrivals, k).frame.Some?
    ensures EffectAt(c, d, arrivals, k).frame.value.presentationTs ==
      ToUnits(Wrap64(Translated(arrivals, arrivals[k].buffer.pts)))
  {
    LatchedAt(c, d, arrivals, k);
    RealtimePts(c, Run(c, d, arrivals[..k]), arrivals[k],
                arrivals[FirstMapped(arrivals)].now, arrivals[FirstTimed(arrivals)].buffer.pts);
  }

  /** Every frame with a valid presentation time is stamped by the one integer translation of its session,
      although the code computes it with wrapping 64-bit words and the first presentation time may exceed
      the clock: this holds exactly when the translated time is a 64-bit time at all. Buffers without a
      valid presentation time may come in between, and before. */
  lemma PtsIsOneTranslation(c: Config, d: Data, arrivals: seq<Arrival>, k: nat)
    requires !c.offline && !c.useOriginalPts && ValidClocks(arrivals) && k < |arrivals| && HasPts(arrivals[k].buffer)
    requires d.firstPts == d.startTime == CLOCK_TIME_NONE
    ensures FirstMapped(arrivals) <= FirstTimed(arrivals) < |arrivals| && EffectAt(c, d, arrivals, k).frame.Some?
    ensures var t := Translated(arrivals, arrivals[k].buffer.pts);
      EffectAt(c, d, arrivals, k).frame.value.presentationTs == t / NS_PER_UNIT <==> 0 <= t < TWO_64
  {
    StampedFromOrigin(c, d, arrivals, k);
    WrappedUnitsExactIffInRange(Translated(arrivals, arrivals[k].buffer.pts));
  }

  /** Order and gaps survive: equal to the integer gap up to one unit of rounding. */
  lemma PtsKeepsOrderAndGaps(c: Config, d: Data, arrivals: seq<Arrival>, i: nat, j: nat)
    requires !c.offline && !c.useOriginalPts && ValidClocks(arrivals)
    requires i < |arrivals| && j < |arrivals| && HasPts(arrivals[i].buffer) && HasPts(arrivals[j].buffer)
    requires d.firstPts == d.startTime == CLOCK_TIME_NONE
    requires 0 <= Translated(arrivals, arrivals[i].buffer.pts) < TWO_64
    requires 0 <= Translated(arrivals, arrivals[j].buffer.pts) < TWO_64
    requires arrivals[i].buffer.pts <= arrivals[j].buffer.pts
    ensures var gap := (arrivals[j].buffer.pts - arrivals[i].buffer.pts) / NS_PER_UNIT;
      var x, y := EffectAt(c, d, arrivals, i).frame, EffectAt(c, d, arrivals, j).frame;
      x.Some? && y.Some? && gap <= y.value.presentationTs - x.value.presentationTs <= gap + 1
  {
    PtsIsOneTranslation(c, d, arrivals, i);
    PtsIsOneTranslation(c, d, arrivals, j);
  }

  /** Offline frames get no decoding time and are moved by the file start time, exactly unless that overflows. */
  lemma OfflinePtsIsShifted(c: Config, d: Data, a: Arrival)
    requires c.offline && !c.useOriginalPts && Mapped(a.buffer)
    ensures var e := BufferEffect(c, d, a.buffer, a.now, a.putOk);
      && e.frame.Some? && e.frame.value.decodingTs == 0
      && (e.frame.value.presentationTs == (a.buffer.pts + c.ptsBase) / NS_PER_UNIT <==> a.buffer.pts + c.ptsBase < TWO_64)
  {
    SignedTripIsExact(0);
    WrappedUnitsExactIffInRange(a.buffer.pts + c.ptsBase);
  }

  // ----- decoding times --------------------------------------------------------------------------

  /** Valid incoming decoding times do not go below the last recorded one, and synthesis does not overflow. */
  predicate DtsOk(d: Data, b: Buffer) {
    !Droppable(b) ==> if b.dts == CLOCK_TIME_NONE then d.lastDts + DTS_STEP < TWO_64 else d.lastDts <= b.dts
  }

  predicate DtsOkAt(c: Config, d: Data, arrivals: seq<Arrival>, k: nat)
    requires k < |arrivals|
  {
    DtsOk(Run(c, d, arrivals[..k]), arrivals[k].buffer)
  }

  predicate DtsOkRun(c: Config, d: Data, arrivals: seq<Arrival>) {
    forall k :: 0 <= k < |arrivals| ==> DtsOkAt(c, d, arrivals, k)
  }

  lemma DtsStep(c: Config, d: Data, a: Arrival)
    requires !c.offline && DtsOk(d, a.buffer)
    ensures var e := BufferEffect(c, d, a.buffer, a.now, a.putOk);
      && d.lastDts <= e.data.lastDts
      && (Droppable(a.buffer) ==> e.data.lastDts == d.lastDts)
      && (!Droppable(a.buffer) ==>
            e.data.lastDts == if a.buffer.dts == CLOCK_TIME_NONE then d.lastDts + DTS_STEP else a.buffer.dts)
      && (e.frame.Some? ==> e.frame.value.decodingTs == e.data.lastDts / NS_PER_UNIT)
  {
    if a.buffer.dts == CLOCK_TIME_NONE && !Droppable(a.buffer) {
      WrapIdentity(d.lastDts + DTS_STEP);
    }
    SignedTripIsExact(DtsOf(c, d, a.buffer));
  }

  lemma {:induction false} LastDtsAscends(c: Config, d: Data, arrivals: seq<Arrival>, i: nat, j: nat)
    requires !c.offline && DtsOkRun(c, d, arrivals) && i <= j <= |arrivals|
    ensures Run(c, d, arrivals[..i]).lastDts <= Run(c, d, arrivals[..j]).lastDts
    decreases j - i
  {
    if i < j {
      LastDtsAscends(c, d, arrivals, i, j - 1);
      RunStep(c, d, arrivals, j - 1);
      assert DtsOkAt(c, d, arrivals, j - 1);
      DtsStep(c, Run(c, d, arrivals[..j - 1]), arrivals[j - 1]);
    }
  }

  /** Realtime decoding times never go down over a run, and each synthesised one is exactly 2 ms later
      than the last recorded time. */
  lemma DecodingTimesAscend(c: Config, d: Data, arrivals: seq<Arrival>, i: nat, j: nat)
    requires !c.offline && DtsOkRun(c, d, arrivals) && i < j < |arrivals|
    ensures var x, y := EffectAt(c, d, arrivals, i).frame, EffectAt(c, d, arrivals, j).frame;
      x.Some? && y.Some? ==> x.value.decodingTs <= y.value.decodingTs
    ensures var b, y := arrivals[j].buffer, EffectAt(c, d, arrivals, j).frame;
      var dts := if b.dts == CLOCK_TIME_NONE then Run(c, d, arrivals[..j]).lastDts + DTS_STEP else b.dts;
      y.Some? ==> y.value.decodingTs == dts / NS_PER_UNIT
    ensures !Droppable(arrivals[j].buffer) && arrivals[j].buffer.dts == CLOCK_TIME_NONE ==>
      EffectAt(c, d, arrivals, j).data.lastDts == Run(c, d, arrivals[..j]).lastDts + DTS_STEP
  {
    RunStep(c, d, arrivals, i);
    LastDtsAscends(c, d, arrivals, i + 1, j);
    assert DtsOkAt(c, d, arrivals, i) && DtsOkAt(c, d, arrivals, j);
    DtsStep(c, Run(c, d, arrivals[..i]), arrivals[i]);
    DtsStep(c, Run(c, d, arrivals[..j]), arrivals[j]);
  }

  // ----- metrics and indices ---------------------------------------------------------------------

  predicate IsPut(a: Arrival) { Mapped(a.buffer) }

  predicate IsGoodPut(a: Arrival) { Mapped(a.buffer) && a.putOk }

  function Puts(arrivals: seq<Arrival>): nat {
    if arrivals == [] then 0 else Puts(arrivals[..|arrivals| - 1]) + if IsPut(arrivals[|arrivals| - 1]) then 1 else 0
  }

  function GoodPuts(arrivals: seq<Arrival>): nat {
    if arrivals == [] then 0
    else GoodPuts(arrivals[..|arrivals| - 1]) + if IsGoodPut(arrivals[|arrivals| - 1]) then 1 else 0
  }

  function GoodKeyPuts(c: Config, arrivals: seq<Arrival>): nat {
    if arrivals == [] then 0
    else
      var a := arrivals[|arrivals| - 1];
      GoodKeyPuts(c, arrivals[..|arrivals| - 1]) + if IsGoodPut(a) && IsKey(c, a.buffer) then 1 else 0
  }

  /** The signals emitted over a run, in order. */
  function Signals(c: Config, d: Data, arrivals: seq<Arrival>): seq<Metric> {
    if arrivals == [] then []
    else
      var front := Signals(c, d, arrivals[..|arrivals| - 1]);
      var m := EffectAt(c, d, arrivals, |arrivals| - 1).metric;
      if m.Some? then front + [m.value] else front
  }

  /** The first successful put was of a frame without the key flag. */
  predicate FirstGoodPutIsDelta(c: Config, arrivals: seq<Arrival>) {
    arrivals != [] &&
    if GoodPuts(arrivals[..|arrivals| - 1]) > 0 then FirstGoodPutIsDelta(c, arrivals[..|arrivals| - 1])
    else IsGoodPut(arrivals[|arrivals| - 1]) && !IsKey(c, arrivals[|arrivals| - 1].buffer)
  }

  /** With metrics on: one signal per successful key frame, and one more if the first successful frame was
      not a key frame; exactly the first signal says it is for the first frame. */
  lemma {:induction false} SignalAccounting(c: Config, d: Data, arrivals: seq<Arrival>)
    requires c.getMetrics && d.onFirstFrame
    ensures var signals := Signals(c, d, arrivals);
      && |signals| == GoodKeyPuts(c, arrivals) + (if FirstGoodPutIsDelta(c, arrivals) then 1 else 0)
      && (|signals| > 0 <==> GoodPuts(arrivals) > 0)
      && (Run(c, d, arrivals).onFirstFrame <==> GoodPuts(arrivals) == 0)
      && (forall k :: 0 <= k < |signals| ==> (signals[k].onFirstFrame <==> k == 0))
  {
    if arrivals != [] {
      SignalAccounting(c, d, arrivals[..|arrivals| - 1]);
      assert arrivals[..|arrivals| - 1 + 1] == arrivals;
    }
  }

  /** The signal that claims the first frame is emitted for the first successful put. */
  lemma FirstSignalIsFirstGoodPut(c: Config, d: Data, arrivals: seq<Arrival>, k: nat)
    requires c.getMetrics && d.onFirstFrame && k < |arrivals|
    ensures var m := EffectAt(c, d, arrivals, k).metric;
      m.Some? && m.value.onFirstFrame <==> IsGoodPut(arrivals[k]) && GoodPuts(arrivals[..k]) == 0
  {
    SignalAccounting(c, d, arrivals[..k]);
  }

  lemma OneFrameCounted(c: Config, d: Data, a: Arrival)
    ensures BufferEffect(c, d, a.buffer, a.now, a.putOk).data.frameCount ==
      if IsPut(a) then Wrap32(d.frameCount + 1) else d.frameCount
  {}

  lemma Wrap32Next(n: int)
    ensures Wrap32(Wrap32(n) + 1) == Wrap32(n + 1)
  {}

  /** Frames are numbered 0, 1, 2, ... modulo 2^32; dropped and unmapped buffers take no number. */
  lemma {:induction false} FrameCountIsPuts(c: Config, d: Data, arrivals: seq<Arrival>)
    requires d.frameCount == 0
    ensures Run(c, d, arrivals).frameCount == Wrap32(Puts(arrivals))
  {
    if arrivals != [] {
      var front := arrivals[..|arrivals| - 1];
      FrameCountIsPuts(c, d, front);
      OneFrameCounted(c, Run(c, d, front), arrivals[|arrivals| - 1]);
      Wrap32Next(Puts(front));
    }
  }

  lemma IndexIsPutsBefore(c: Config, d: Data, arrivals: seq<Arrival>, k: nat)
    requires d.frameCount == 0 && k < |arrivals|
    ensures EffectAt(c, d, arrivals, k).frame.Some? <==> IsPut(arrivals[k])
    ensures IsPut(arrivals[k]) ==> EffectAt(c, d, arrivals, k).frame.value.index == Wrap32(Puts(arrivals[..k]))
  {
    FrameCountIsPuts(c, d, arrivals[..k]);
  }

  // ----- sessions --------------------------------------------------------------------------------

  /** Whatever went before, the transition to READY starts a session of its own: indices begin at 0 and the
      translation is that of the session's own first buffers. */
  lemma EverySessionStartsAfresh(c: Config, before: Data, arrivals: seq<Arrival>, k: nat)
    requires !c.offline && !c.useOriginalPts && ValidClocks(arrivals) && k < |arrivals| && HasPts(arrivals[k].buffer)
    ensures var frame := EffectAt(c, Ready(before), arrivals, k).frame;
      && FirstMapped(arrivals) <= FirstTimed(arrivals) < |arrivals|
      && frame.Some? && frame.value.index == Wrap32(Puts(arrivals[..k]))
      && var t := Translated(arrivals, arrivals[k].buffer.pts);
         (frame.value.presentationTs == t / NS_PER_UNIT <==> 0 <= t < TWO_64)
    ensures Ready(before).lastDts == before.lastDts && Ready(before).onFirstFrame == before.onFirstFrame
  {
    PtsIsOneTranslation(c, Ready(before), arrivals, k);
    IndexIsPutsBefore(c, Ready(before), arrivals, k);
  }

  // ----- the callback as written -----------------------------------------------------------------

  class CustomData {
    const config: Config
    var lastDts: U64
    var firstPts: U64
    var startTime: U64
    var frameCount: U32
    var onFirstFrame: bool

    ghost function Contents(): Data
      reads this
    {
      Data(lastDts, firstPts, startTime, frameCount, onFirstFrame)
    }

    constructor (config: Config)
      ensures this.config == config && Contents() == Fresh()
    {
      this.config := config;
      lastDts, firstPts, startTime, frameCount, onFirstFrame := 0, CLOCK_TIME_NONE, CLOCK_TIME_NONE, 0, true;
    }

    method BecomeReady()
      modifies this
      ensures Contents() == Ready(old(Contents()))
    {
      firstPts, startTime, frameCount := CLOCK_TIME_NONE, CLOCK_TIME_NONE, 0;
    }

    method PutFrame(f: Frame, putOk: bool) returns (metric: Option<Metric>)
      modifies this`onFirstFrame
      ensures (Contents(), metric) == PutEffect(config, old(Contents()), f, putOk)
    {
      metric := None;
      if config.getMetrics && putOk {
        if f.key || onFirstFrame {
          metric := Some(Metric(f.presentationTs, onFirstFrame));
          onFirstFrame := false;
        }
      }
    }

    /** Times that do not depend on the session: decoding time, and the presentation time in offline mode. */
    method StampDts(b: Buffer) returns (pts: U64, dts: U64)
      modifies this`lastDts
      ensures lastDts == dts == DtsOf(config, old(Contents()), b)
      ensures pts == if !config.offline then b.pts else if config.useOriginalPts then b.dts else Wrap64(b.pts + config.ptsBase)
    {
      pts, dts := b.pts, b.dts;
      if config.offline {
        if !config.useOriginalPts {
          dts := 0;
          pts := Wrap64(pts + config.ptsBase);
        } else {
          pts := dts;
        }
      } else if dts == CLOCK_TIME_NONE {
        dts := Wrap64(lastDts + DTS_STEP);
      }
      lastDts := dts;
    }

    method KeyFlag(b: Buffer) returns (key: bool)
      ensures key <==> IsKey(config, b)
    {
      key := false;
      match config.media {
        case AudioOnly => key := !b.delta;
        case VideoOnly => key := !b.delta;
        case AudioVideo => if !b.delta && b.kind.Video? { key := true; }
      }
    }

    /** The part of the buffer callback that follows the status check. */
    method HandleBuffer(b: Buffer, now: U64, putOk: bool) returns (frame: Option<Frame>, metric: Option<Metric>)
      modifies this
      ensures Effect(Contents(), frame, metric) == BufferEffect(config, old(Contents()), b, now, putOk)
    {
      if Droppable(b) {
        return None, None;
      }
      var pts, dts := StampDts(b);
      var trackId := b.trackId;
      if !b.mappable {
        return None, None;
      }
      var key := KeyFlag(b);
      if !config.offline {
        if firstPts == CLOCK_TIME_NONE {
          firstPts := pts;
        }
        if startTime == CLOCK_TIME_NONE {
          startTime := now;
        }
        pts := if config.useOriginalPts then dts else Wrap64(pts + startTime - firstPts);
      }
      var f := Frame(key, frameCount, ToUnits(dts), ToUnits(pts), trackId);
      metric := PutFrame(f, putOk);
      frame := Some(f);
      frameCount := Wrap32(frameCount + 1);
    }
  }
}
