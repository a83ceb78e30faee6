/** Whole runs of a file upload: callbacks of the pipeline and of the producer, and the retry driver. */
module FileUploadProtocol {
  import opened Words
  import opened Epochs
  import opened FileUpload

  const MAX_PASSES: nat := 3

  datatype Callback = NewSample(buffer: Buffer) | EndOfStream | ErrorReport(code: Status) | Ack(persisted: bool, timestamp: nat)

  /** `Begin` starts the pipeline for the next file, `Return` is the driver continuing after the main loop. */
  datatype Event = Begin(initOk: bool) | Call(callback: Callback) | Return(stopSyncOk: bool)

  /** PassStart: the driver is about to load the resume index. */
  datatype Phase = PassStart | Between(next: nat) | Playing(file: nat, eos: bool, keyed: bool) | Finished

  /** What was recorded for a file: the log position of the last key frame, when, whether every earlier
      upload of the same session had ended with an end of stream, and whether this one had a key frame. */
  datatype Completion = Completion(index: nat, epoch: nat, session: nat, clean: bool, keyed: bool)

  /** The session data with the history of the run; `starts` are the sessions codec data was submitted in. */
  datatype World = World(
    d: Data, phase: Phase, retries: nat, runs: nat,
    log: seq<Stamp>, closed: seq<Window>, session: nat,
    lastKey: Option<nat>, done: seq<Option<Completion>>, missed: Option<nat>, starts: seq<nat>)

  function Init(files: nat, start: U64): World {
    World(FreshData(files, start), PassStart, MAX_PASSES, 0, [], [], 0, None, seq(files, _ => None), None, [])
  }

  function Files(w: World): nat { |w.d.lastFragmentTs| }

  /** Stream flushed and states cleared before the next pass, or the driver gives up. */
  function EndPass(w: World, retry: bool): World {
    if !retry then w.(phase := Finished)
    else if w.retries <= 1 then w.(phase := Finished, retries := 0)
    else w.(phase := PassStart, retries := w.retries - 1, session := w.session + 1, missed := None,
            d := w.d.(status := STATUS_SUCCESS, streamStarted := false))
  }

  function BeginFile(w: World, file: nat, initOk: bool): World {
    if file >= Files(w) then EndPass(w, true)
    else w.(phase := if initOk then Playing(file, false, false) else Finished, runs := w.runs + 1,
            d := w.d.(current := file, firstPts := CLOCK_TIME_NONE))
  }

  function ReturnFromPipeline(w: World, stopSyncOk: bool): World
    requires w.phase.Playing?
  {
    var file := w.phase.file;
    if w.d.status.failed then EndPass(w, w.d.status.retriable)
    else if file + 1 == Files(w) then EndPass(w, !stopSyncOk)
    else w.(phase := Between(file + 1),
            missed := if !w.phase.eos && w.missed.None? then Some(file) else w.missed)
  }

  predicate GetsStamped(d: Data, b: Buffer) {
    !d.status.failed && !Droppable(b)
  }

  function Sample(w: World, b: Buffer): World
    requires w.phase.Playing?
  {
    var d' := OnNewSample(w.d, b).data;
    var starts := if OnNewSample(w.d, b).starts then w.starts + [w.session] else w.starts;
    if !GetsStamped(w.d, b) then w.(d := d', starts := starts)
    else
      var s := Stamp(StampedPts(w.d, b), d'.syntheticDts, !b.delta, b.mappable, w.phase.file, |w.closed|, w.session, b.pts);
      w.(d := d', starts := starts, log := w.log + [s],
         lastKey := if s.key then Some(|w.log|) else w.lastKey,
         phase := w.phase.(keyed := w.phase.keyed || s.key))
  }

  function Eos(w: World): World
    requires w.phase.Playing? && w.d.current < Files(w)
  {
    var lo := w.d.start + w.d.basePts;
    w.(d := EosCallback(w.d),
       closed := w.closed + [Window(lo, lo + w.d.maxFramePts)],
       phase := w.phase.(eos := true),
       done := if w.lastKey.Some? && w.d.current < |w.done|
               then w.done[w.d.current := Some(Completion(w.lastKey.value, |w.closed|, w.session, w.missed.None?, w.phase.keyed))]
               else w.done)
  }

  /** A sink delivers nothing outside a pipeline run, nor after its end of stream. */
  function Deliver(w: World, c: Callback): World {
    match c
    case NewSample(b) => if w.phase.Playing? && !w.phase.eos then Sample(w, b) else w
    case EndOfStream => if w.phase.Playing? && !w.phase.eos && w.d.current < Files(w) then Eos(w) else w
    case ErrorReport(code) => w.(d := StreamError(w.d, code))
    case Ack(persisted, timestamp) => w.(d := FragmentAck(w.d, persisted, timestamp))
  }

  function Step(w: World, e: Event): World {
    match e
    case Begin(initOk) =>
      (match w.phase
       case PassStart => BeginFile(w, w.d.unpersisted, initOk)
       case Between(next) => BeginFile(w, next, initOk)
       case _ => w)
    case Call(c) => Deliver(w, c)
    case Return(stopSyncOk) => if w.phase.Playing? then ReturnFromPipeline(w, stopSyncOk) else w
  }

  function Run(w: World, es: seq<Event>): World {
    if es == [] then w else Step(Run(w, es[..|es| - 1]), es[|es| - 1])
  }

  // ----- timestamps ------------------------------------------------------------------------------

  /** Frames that are not dropped have valid presentation times, and nothing overflows 64 bits. */
  predicate TimeOk(w: World, e: Event) {
    match e
    case Call(NewSample(b)) => Droppable(b) || (b.pts != CLOCK_TIME_NONE && b.pts + w.d.basePts + w.d.start < TWO_64)
    case Call(EndOfStream) => w.d.start + w.d.basePts + w.d.maxFramePts + NS_PER_MS < TWO_64
    case _ => true
  }

  predicate TimeOkRun(w: World, es: seq<Event>) {
    es == [] || (TimeOkRun(w, es[..|es| - 1]) && TimeOk(Run(w, es[..|es| - 1]), es[|es| - 1]))
  }

  ghost predicate TimeInv(w: World) {
    && w.d.fileSource
    && Framed(w.log, w.closed, w.d.start, w.d.basePts, w.d.maxFramePts)
  }

  lemma RunAppends(w: World, es: seq<Event>, e: Event)
    ensures Run(w, es + [e]) == Step(Run(w, es), e)
    ensures TimeOkRun(w, es + [e]) <==> TimeOkRun(w, es) && TimeOk(Run(w, es), e)
  {}

  predicate IsStamp(w: World, e: Event) {
    e.Call? && e.callback.NewSample? && w.phase.Playing? && !w.phase.eos && GetsStamped(w.d, e.callback.buffer)
  }

  predicate IsEnd(w: World, e: Event) {
    e.Call? && e.callback.EndOfStream? && w.phase.Playing? && !w.phase.eos && w.d.current < Files(w)
  }

  lemma SampleEffect(d: Data, b: Buffer)
    requires d.fileSource
    ensures var d' := OnNewSample(d, b).data;
      if GetsStamped(d, b) then
        d' == d.(streamStarted := true, syntheticDts := Wrap64(d.syntheticDts + DTS_STEP),
                 maxFramePts := Max(d.maxFramePts, b.pts),
                 keyFramePts := if b.delta then d.keyFramePts else StampedPts(d, b))
      else
        d' == d.(streamStarted := d'.streamStarted)
  {}

  /** The timestamp fields move only when a frame is stamped or an epoch ends. */
  ghost predicate TimesMove(w: World, e: Event, w': World) {
    && w'.d.fileSource && w'.d.start == w.d.start
    && (if IsStamp(w, e) then
          var b := e.callback.buffer;
          && w'.log == w.log + [Stamp(StampedPts(w.d, b), Wrap64(w.d.syntheticDts + DTS_STEP), !b.delta, b.mappable,
                                      w.phase.file, |w.closed|, w.session, b.pts)]
          && w'.d.maxFramePts == Max(w.d.maxFramePts, b.pts)
          && w'.d.syntheticDts == Wrap64(w.d.syntheticDts + DTS_STEP)
        else
          w'.log == w.log && w'.d.syntheticDts == w.d.syntheticDts)
    && (if IsEnd(w, e) then
          && w'.closed == w.closed + [Window(w.d.start + w.d.basePts, w.d.start + w.d.basePts + w.d.maxFramePts)]
          && w'.d.basePts == Wrap64(w.d.basePts + w.d.maxFramePts + NS_PER_MS) && w'.d.maxFramePts == 0
        else
          w'.closed == w.closed && w'.d.basePts == w.d.basePts)
    && (!IsStamp(w, e) && !IsEnd(w, e) ==> w'.d.maxFramePts == w.d.maxFramePts)
  }

  lemma SampleTimes(w: World, b: Buffer)
    requires w.d.fileSource
    ensures TimesMove(w, Call(NewSample(b)), Step(w, Call(NewSample(b))))
  {
    SampleEffect(w.d, b);
  }

  lemma EndTimes(w: World)
    requires w.d.fileSource
    ensures TimesMove(w, Call(EndOfStream), Step(w, Call(EndOfStream)))
  {}

  lemma DriverTimes(w: World, e: Event)
    requires w.d.fileSource && !e.Call?
    ensures TimesMove(w, e, Step(w, e))
  {}

  lemma StepTimes(w: World, e: Event)
    requires w.d.fileSource
    ensures TimesMove(w, e, Step(w, e))
  {
    match e
    case Call(NewSample(b)) => SampleTimes(w, b);
    case Call(EndOfStream) => EndTimes(w);
    case Call(_) =>
    case _ => DriverTimes(w, e);
  }

  lemma TimesMoveKeepsTimeInv(w: World, e: Event, w': World)
    requires TimeInv(w) && TimeOk(w, e) && TimesMove(w, e, w')
    ensures TimeInv(w')
  {
    if IsStamp(w, e) {
      WrapIdentity(e.callback.buffer.pts + w.d.basePts + w.d.start);
      StampMove(w, w', w'.log[|w.log|], e.callback.buffer.pts);
    } else if IsEnd(w, e) {
      WrapIdentity(w.d.basePts + w.d.maxFramePts + NS_PER_MS);
      EndMove(w, w');
    }
  }

  lemma StampMove(w: World, w': World, s: Stamp, pts: nat)
    requires TimeInv(w) && w'.d.fileSource && w'.d.start == w.d.start && w'.d.basePts == w.d.basePts
    requires w'.log == w.log + [s] && w'.closed == w.closed && w'.d.maxFramePts == Max(w.d.maxFramePts, pts)
    requires s.epoch == |w.closed| && s.ts == w.d.start + w.d.basePts + pts
    ensures TimeInv(w')
  {}

  lemma EndMove(w: World, w': World)
    requires TimeInv(w) && w'.d.fileSource && w'.d.start == w.d.start && w'.log == w.log
    requires w'.closed == w.closed + [Window(w.d.start + w.d.basePts, w.d.start + w.d.basePts + w.d.maxFramePts)]
    requires w'.d.basePts == w.d.basePts + w.d.maxFramePts + NS_PER_MS && w'.d.maxFramePts == 0
    ensures TimeInv(w')
  {
    AdvanceKeepsFramed(w.log, w.closed, w.d.start, w.d.basePts, w.d.maxFramePts, w'.d.basePts);
  }

  lemma {:induction false} RunKeepsTimeInv(files: nat, start: U64, es: seq<Event>)
    requires TimeOkRun(Init(files, start), es)
    ensures TimeInv(Run(Init(files, start), es))
  {
    if es != [] {
      RunKeepsTimeInv(files, start, es[..|es| - 1]);
      var w := Run(Init(files, start), es[..|es| - 1]);
      StepTimes(w, es[|es| - 1]);
      TimesMoveKeepsTimeInv(w, es[|es| - 1], Run(Init(files, start), es));
    }
  }

  /** In every run with aborts and resumes, the frames between two ends of stream lie in one window,
      the windows tile the time line 1 ms apart, and no rounding makes frames of different epochs meet. */
  lemma {:induction false} EpochsNeverOverlap(files: nat, start: U64, es: seq<Event>)
    requires TimeOkRun(Init(files, start), es)
    ensures var w := Run(Init(files, start), es);
      && Framed(w.log, w.closed, start, w.d.basePts, w.d.maxFramePts)
      && Separated(w.log)
  {
    var w := Run(Init(files, start), es);
    RunKeepsTimeInv(files, start, es);
    StartIsConstant(Init(files, start), es);
    FramedImpliesSeparated(w.log, w.closed, start, w.d.basePts, w.d.maxFramePts);
  }

  lemma {:induction false} StartIsConstant(w: World, es: seq<Event>)
    requires w.d.fileSource
    ensures Run(w, es).d.fileSource && Run(w, es).d.start == w.d.start
  {
    if es != [] {
      StartIsConstant(w, es[..|es| - 1]);
      StepTimes(Run(w, es[..|es| - 1]), es[|es| - 1]);
    }
  }

  ghost predicate PlaceInv(w: World) {
    w.d.fileSource && Placed(w.log, |w.closed|, w.d.start, w.d.basePts, w.d.maxFramePts)
  }

  lemma TimesMoveKeepsPlaceInv(w: World, e: Event, w': World)
    requires PlaceInv(w) && TimeOk(w, e) && TimesMove(w, e, w')
    ensures PlaceInv(w')
  {
    if IsStamp(w, e) {
      WrapIdentity(e.callback.buffer.pts + w.d.basePts + w.d.start);
      StampKeepsPlaced(w.log, w.d.start, w.d.basePts, w.d.maxFramePts, w'.log[|w.log|]);
    } else if IsEnd(w, e) {
      WrapIdentity(w.d.basePts + w.d.maxFramePts + NS_PER_MS);
      AdvanceKeepsPlaced(w.log, |w.closed|, w.d.start, w.d.basePts, w.d.maxFramePts);
    }
  }

  /** In every run each frame is stamped with the start time, plus the lengths of all epochs before its own
      with 1 ms after each, plus the presentation time its buffer came with: within an epoch nothing is
      moved against anything else, and an epoch begins right after its predecessor. */
  lemma {:induction false} FramesKeepTheirPlace(files: nat, start: U64, es: seq<Event>)
    requires TimeOkRun(Init(files, start), es)
    ensures var w := Run(Init(files, start), es);
      w.d.start == start && PlaceInv(w)
  {
    if es != [] {
      var w := Run(Init(files, start), es[..|es| - 1]);
      FramesKeepTheirPlace(files, start, es[..|es| - 1]);
      StepTimes(w, es[|es| - 1]);
      TimesMoveKeepsPlaceInv(w, es[|es| - 1], Run(Init(files, start), es));
    }
  }

  function Ends(es: seq<Event>): nat {
    if es == [] then 0 else Ends(es[..|es| - 1]) + if es[|es| - 1] == Call(EndOfStream) then 1 else 0
  }

  predicate BoundedEvent(e: Event, bound: nat) {
    e.Call? && e.callback.NewSample? && !Droppable(e.callback.buffer) ==>
      e.callback.buffer.pts != CLOCK_TIME_NONE && e.callback.buffer.pts <= bound
  }

  ghost predicate PtsBounded(es: seq<Event>, bound: nat) {
    forall k :: 0 <= k < |es| ==> BoundedEvent(es[k], bound)
  }

  ghost predicate WithinBudget(w: World, start: U64, ends: nat, bound: nat) {
    w.d.fileSource && w.d.start == start && w.d.basePts <= Budget(ends, bound) && w.d.maxFramePts <= bound
  }

  lemma BudgetStep(w: World, e: Event, start: U64, ends: nat, bound: nat)
    requires WithinBudget(w, start, ends, bound) && BoundedEvent(e, bound)
    requires start + Budget(ends + 1, bound) < TWO_64
    ensures TimeOk(w, e)
    ensures WithinBudget(Step(w, e), start, ends + if e == Call(EndOfStream) then 1 else 0, bound)
  {
    StepTimes(w, e);
    BudgetMove(w, e, Step(w, e), start, ends, bound);
  }

  lemma BudgetMove(w: World, e: Event, w': World, start: U64, ends: nat, bound: nat)
    requires WithinBudget(w, start, ends, bound) && TimesMove(w, e, w') && BoundedEvent(e, bound)
    requires start + Budget(ends + 1, bound) < TWO_64
    ensures TimeOk(w, e)
    ensures WithinBudget(w', start, ends + if e == Call(EndOfStream) then 1 else 0, bound)
  {}

  lemma {:induction false} BudgetCoversRun(files: nat, start: U64, es: seq<Event>, bound: nat)
    requires PtsBounded(es, bound)
    requires start + Budget(Ends(es) + 1, bound) < TWO_64
    ensures TimeOkRun(Init(files, start), es)
    ensures WithinBudget(Run(Init(files, start), es), start, Ends(es), bound)
  {
    if es != [] {
      var front := es[..|es| - 1];
      BudgetCoversRun(files, start, front, bound);
      BudgetStep(Run(Init(files, start), front), es[|es| - 1], start, Ends(front), bound);
    }
  }

  /** A budget known before the run starts rules out every overflow: longest file and number of ends suffice. */
  lemma BudgetRulesOutOverflow(files: nat, start: U64, es: seq<Event>, bound: nat)
    requires PtsBounded(es, bound)
    requires start + (Ends(es) + 1) * (bound + NS_PER_MS) < TWO_64
    ensures TimeOkRun(Init(files, start), es)
  {
    BudgetIsProduct(Ends(es) + 1, bound);
    BudgetCoversRun(files, start, es, bound);
  }

  function Milliseconds(k: nat): U64 {
    Wrap64(k * NS_PER_MS)
  }

  lemma NextMillisecond(k: nat)
    ensures Wrap64(Milliseconds(k) + DTS_STEP) == Milliseconds(k + 1)
  {
    WrapAdds(k * NS_PER_MS, DTS_STEP);
  }

  ghost predicate Ticking(log: seq<Stamp>, syntheticDts: U64) {
    && syntheticDts == Milliseconds(|log|)
    && forall k :: 0 <= k < |log| ==> log[k].dts == Milliseconds(k + 1)
  }

  lemma TimesMoveKeepsTicking(w: World, e: Event, w': World)
    requires Ticking(w.log, w.d.syntheticDts) && TimesMove(w, e, w')
    ensures Ticking(w'.log, w'.d.syntheticDts)
  {
    NextMillisecond(|w.log|);
  }

  /** Decoding times ignore files, retries and aborts: the k-th stamped frame of the run gets k ms. */
  lemma {:induction false} KthFrameDecodesAtKMilliseconds(files: nat, start: U64, es: seq<Event>)
    ensures var w := Run(Init(files, start), es);
      && w.d.syntheticDts == Milliseconds(|w.log|)
      && (forall k :: 0 <= k < |w.log| ==> w.log[k].dts == Milliseconds(k + 1))
  {
    var w := Run(Init(files, start), es);
    if es != [] {
      var front := es[..|es| - 1];
      KthFrameDecodesAtKMilliseconds(files, start, front);
      StartIsConstant(Init(files, start), front);
      StepTimes(Run(Init(files, start), front), es[|es| - 1]);
      TimesMoveKeepsTicking(Run(Init(files, start), front), es[|es| - 1], w);
    }
  }

  /** Which buffers of a file are put, and how: the frame carries the logged times in 100 ns units, the log
      the presentation time and key flag of the buffer. */
  lemma PutFramesCarryTheLoggedTimes(w: World, b: Buffer)
    requires w.d.fileSource && w.phase.Playing?
    ensures var r := OnNewSample(w.d, b); var w' := Sample(w, b);
      if GetsStamped(w.d, b) then
        var s := w'.log[|w.log|];
        && w'.log == w.log + [s]
        && s.pts == b.pts && (s.key <==> !b.delta) && s.epoch == |w.closed| && s.file == w.phase.file
        && r.flow == FlowOk
        && (s.put <==> r.frame.Some?) && (s.put <==> b.mappable)
        && (s.put ==> r.frame.value == Frame(s.key, s.dts / NS_PER_UNIT, s.ts / NS_PER_UNIT))
      else
        w'.log == w.log && r.frame.None? && (r.flow == FlowError <==> w.d.status.failed)
  {
    SignedTripIsExact(StampedPts(w.d, b));
    SignedTripIsExact(Wrap64(w.d.syntheticDts + DTS_STEP));
  }

  // ----- codec data ------------------------------------------------------------------------------

  ghost predicate Ascending(starts: seq<nat>) {
    forall i, j :: 0 <= i < j < |starts| ==> starts[i] < starts[j]
  }

  /** The stream was started once in each session that stamped a frame, and in no session twice. */
  ghost predicate StartInv(w: World) {
    && Ascending(w.starts)
    && (forall i :: 0 <= i < |w.starts| ==> w.starts[i] <= w.session)
    && (w.d.streamStarted <==> w.session in w.starts)
    && (forall k :: 0 <= k < |w.log| ==> w.log[k].session <= w.session && w.log[k].session in w.starts)
  }

  /** How a step touches what StartInv speaks of. */
  ghost predicate StartsMove(w: World, w': World) {
    || (&& w'.starts == w.starts && w'.session == w.session && w'.d.streamStarted == w.d.streamStarted && w'.log == w.log)
    || (&& w'.starts == w.starts && w'.session == w.session + 1 && !w'.d.streamStarted && w'.log == w.log)
    || (&& w'.starts == (if w.d.streamStarted then w.starts else w.starts + [w.session])
        && w'.session == w.session && w'.d.streamStarted
        && (w'.log == w.log || (|w'.log| == |w.log| + 1 && w'.log[..|w.log|] == w.log && w'.log[|w.log|].session == w.session)))
  }

  lemma SampleStarts(d: Data, b: Buffer)
    ensures var r := OnNewSample(d, b);
      if d.status.failed then !r.starts && r.data.streamStarted == d.streamStarted
      else (r.starts <==> !d.streamStarted) && r.data.streamStarted
  {}

  lemma StepMovesStarts(w: World, e: Event)
    ensures StartsMove(w, Step(w, e))
  {
    if e.Call? && e.callback.NewSample? {
      SampleStarts(w.d, e.callback.buffer);
    }
  }

  lemma StartsMoveKeepsInv(w: World, w': World)
    requires StartInv(w) && StartsMove(w, w')
    ensures StartInv(w')
  {
    assert w.session in w.starts + [w.session];
    if w'.starts != w.starts {
      assert w.session !in w.starts;
      assert forall i :: 0 <= i < |w.starts| ==> w.starts[i] in w.starts;
    }
  }

  /** Codec data is submitted exactly once per session, before its first frame, in every run. */
  lemma {:induction false} StartedOncePerSession(files: nat, start: U64, es: seq<Event>)
    ensures StartInv(Run(Init(files, start), es))
  {
    if es != [] {
      var w := Run(Init(files, start), es[..|es| - 1]);
      StartedOncePerSession(files, start, es[..|es| - 1]);
      StepMovesStarts(w, es[|es| - 1]);
      StartsMoveKeepsInv(w, Run(Init(files, start), es));
    }
  }

  // ----- errors ----------------------------------------------------------------------------------

  /** The producer at work: callbacks, and error reports of failures only. */
  predicate FailuresOnly(es: seq<Event>) {
    forall k :: 0 <= k < |es| ==> es[k].Call? && (es[k].callback.ErrorReport? ==> es[k].callback.code.failed)
  }

  lemma SampleAfterFailure(w: World, b: Buffer)
    requires w.d.status.failed
    ensures OnNewSample(w.d, b) == SampleResult(w.d, None, FlowError, false)
    ensures w.phase.Playing? ==> Sample(w, b) == w
  {}

  lemma {:induction false} NothingStampedAfterFailure(w: World, es: seq<Event>)
    requires w.d.status.failed && FailuresOnly(es)
    ensures Run(w, es).d.status.failed && Run(w, es).log == w.log && Run(w, es).starts == w.starts
  {
    if es != [] {
      var front := es[..|es| - 1];
      NothingStampedAfterFailure(w, front);
      if es[|es| - 1].callback.NewSample? {
        SampleAfterFailure(Run(w, front), es[|es| - 1].callback.buffer);
      }
    }
  }

  /** A failure that a file cannot be streamed past stops the upload until the driver takes over: no frame is
      stamped, none is put. Any other report changes nothing. */
  lemma ReportStopsIff(w: World, code: Status, es: seq<Event>)
    requires w.d.fileSource && code.failed && FailuresOnly(es)
    ensures var w' := Step(w, Call(ErrorReport(code)));
      if code.retriable || !code.recoverable then
        w'.d.status == code && Run(w', es).d.status.failed && Run(w', es).log == w.log
      else w' == w
  {
    var w' := Step(w, Call(ErrorReport(code)));
    if code.retriable || !code.recoverable {
      NothingStampedAfterFailure(w', es);
    }
  }
}
