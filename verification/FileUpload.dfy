/** The callbacks of the appsink upload sample, as functions of the shared session data. */
module FileUpload {
  import opened Words

  const DTS_STEP: int := NS_PER_MS   // frame duration of 1 ms

  datatype Buffer = Buffer(corrupted: bool, decodeOnly: bool, discont: bool, delta: bool, header: bool,
                           otherFlags: bool, pts: U64, dts: U64, mappable: bool)

  datatype Frame = Frame(key: bool, decodingTs: nat, presentationTs: nat)

  datatype Flow = FlowOk | FlowError

  datatype Data = Data(
    fileSource: bool, absoluteTimes: bool, start: U64,
    lastFragmentTs: seq<U64>, current: nat, unpersisted: nat,
    status: Status, streamStarted: bool,
    basePts: U64, maxFramePts: U64, keyFramePts: U64, syntheticDts: U64, firstPts: U64)

  /** `starts`: the codec data is submitted in this call. */
  datatype SampleResult = SampleResult(data: Data, frame: Option<Frame>, flow: Flow, starts: bool)

  predicate Droppable(b: Buffer) {
    || b.corrupted
    || b.decodeOnly
    || (b.discont && !b.delta && !b.header && !b.otherFlags)
    || (b.discont && b.delta)
    || (b.header && (b.pts == CLOCK_TIME_NONE || b.dts == CLOCK_TIME_NONE))
  }

  function StampedPts(d: Data, b: Buffer): U64 {
    Wrap64(b.pts + d.basePts + d.start)
  }

  /** Data and decoding time after the timestamp bookkeeping of a frame that is not dropped. */
  function StampDts(d: Data, b: Buffer): (Data, U64) {
    if d.fileSource || b.dts == CLOCK_TIME_NONE then
      var dts := Wrap64(d.syntheticDts + DTS_STEP);
      (d.(syntheticDts := dts), dts)
    else
      (d.(syntheticDts := b.dts), b.dts)
  }

  function StampPts(d: Data, b: Buffer): (Data, U64) {
    if d.fileSource then
      var pts := StampedPts(d, b);
      (d.(maxFramePts := Max(d.maxFramePts, b.pts), keyFramePts := if b.delta then d.keyFramePts else pts), pts)
    else if d.absoluteTimes then
      var first := if d.firstPts == CLOCK_TIME_NONE then b.pts else d.firstPts;
      (d.(firstPts := first), Wrap64(b.pts + d.start - first))
    else
      (d, b.pts)
  }

  function OnNewSample(d: Data, b: Buffer): SampleResult {
    if d.status.failed then
      SampleResult(d, None, FlowError, false)
    else if Droppable(b) then
      SampleResult(d.(streamStarted := true), None, FlowOk, !d.streamStarted)
    else
      var (d1, dts) := StampDts(d.(streamStarted := true), b);
      var (d2, pts) := StampPts(d1, b);
      SampleResult(d2, if b.mappable then Some(Frame(!b.delta, ToUnits(dts), ToUnits(pts))) else None,
                   FlowOk, !d.streamStarted)
  }

  function EosCallback(d: Data): Data
    requires d.current < |d.lastFragmentTs|
  {
    d.(basePts := Wrap64(d.basePts + d.maxFramePts + NS_PER_MS),
       maxFramePts := 0,
       lastFragmentTs := d.lastFragmentTs[d.current := d.keyFramePts])
  }

  /** The bounds-checked access of the ACK handler throws once every file is persisted. */
  predicate AckThrows(d: Data, persisted: bool) {
    d.fileSource && persisted && d.unpersisted >= |d.lastFragmentTs|
  }

  predicate AckMatches(d: Data, persisted: bool, timestamp: nat) {
    && d.fileSource && persisted
    && d.unpersisted < |d.lastFragmentTs|
    && var last := d.lastFragmentTs[d.unpersisted] / NS_PER_MS;
       last != 0 && last == timestamp
  }

  function FragmentAck(d: Data, persisted: bool, timestamp: nat): Data {
    if AckMatches(d, persisted, timestamp) then d.(unpersisted := d.unpersisted + 1) else d
  }

  predicate StopsPipeline(d: Data, code: Status) {
    (code.retriable && d.fileSource) || (!code.retriable && !code.recoverable)
  }

  function StreamError(d: Data, code: Status): Data {
    if StopsPipeline(d, code) then d.(status := code) else d
  }

  function FreshData(files: nat, start: U64): Data {
    Data(true, true, start, seq(files, _ => 0), 0, 0, STATUS_SUCCESS, false, 0, 0, 0, 0, CLOCK_TIME_NONE)
  }

  // ----- what the callbacks mean -----------------------------------------------------------------

  /** Exactly these buffers are put: intact ones that can be mapped, headers only with both times, and at a
      discontinuity only a buffer that is no delta and is marked as something else besides. */
  lemma PutIff(d: Data, b: Buffer)
    ensures OnNewSample(d, b).frame.Some? <==>
      && !d.status.failed && b.mappable && !b.corrupted && !b.decodeOnly
      && (b.header ==> b.pts != CLOCK_TIME_NONE && b.dts != CLOCK_TIME_NONE)
      && (b.discont ==> !b.delta && (b.header || b.otherFlags))
    ensures OnNewSample(d, b).flow.FlowError? <==> d.status.failed
  {}

  /** Of a live source with absolute times, the first presentation time is latched and every frame lies as
      far after the start as its buffer after that one; otherwise buffers keep their own time. Valid decoding
      times are kept, missing ones synthesised 1 ms after the last. */
  lemma LiveFrame(d: Data, b: Buffer)
    requires !d.fileSource && OnNewSample(d, b).frame.Some?
    ensures var r := OnNewSample(d, b); var f := r.frame.value;
      && (f.key <==> !b.delta)
      && (b.dts != CLOCK_TIME_NONE ==> f.decodingTs == b.dts / NS_PER_UNIT && r.data.syntheticDts == b.dts)
      && (b.dts == CLOCK_TIME_NONE && d.syntheticDts + NS_PER_MS < TWO_64 ==>
            f.decodingTs == (d.syntheticDts + NS_PER_MS) / NS_PER_UNIT && r.data.syntheticDts == d.syntheticDts + NS_PER_MS)
      && (!d.absoluteTimes ==> f.presentationTs == b.pts / NS_PER_UNIT)
      && (d.absoluteTimes ==>
            && r.data.firstPts == (if d.firstPts == CLOCK_TIME_NONE then b.pts else d.firstPts)
            && var t := d.start + b.pts - r.data.firstPts;
               (f.presentationTs == t / NS_PER_UNIT <==> 0 <= t < TWO_64))
  {
    SignedTripIsExact(b.pts);
    LiveDecodingTime(d, b);
    if d.absoluteTimes {
      var first := if d.firstPts == CLOCK_TIME_NONE then b.pts else d.firstPts;
      WrappedUnitsExactIffInRange(b.pts + d.start - first);
    }
  }

  lemma LiveDecodingTime(d: Data, b: Buffer)
    requires !d.fileSource
    ensures var (d', dts) := StampDts(d, b);
      && d'.syntheticDts == dts && ToUnits(dts) == dts / NS_PER_UNIT
      && (b.dts != CLOCK_TIME_NONE ==> dts == b.dts)
      && (b.dts == CLOCK_TIME_NONE && d.syntheticDts + NS_PER_MS < TWO_64 ==> dts == d.syntheticDts + NS_PER_MS)
  {
    SignedTripIsExact(StampDts(d, b).1);
  }
}
