/** File upload with two tracks: the shared timestamps and the two-phase end of stream. */
module AudioVideoUpload {
  import opened Words
  import opened Epochs
  import opened FileUpload

  datatype Track = Video | Audio

  /** Where a track's streaming thread is: delivering frames, between the load and the store of the
      end-of-stream callback, or past it. `seen` is what the load returned. */
  datatype Thread = Streaming | Loaded(seen: bool) | Done(seen: bool)

  datatype Shared = Shared(
    start: U64, basePts: U64, maxFramePts: U64, keyFramePts: U64, firstVideoFrame: bool,
    eosTriggered: bool, lastFragmentTs: seq<U64>, current: nat)

  /** `advances` counts the moves of base_pts in the current pipeline; `overlapped` says that one
      end-of-stream callback loaded the flag while the other was between its load and its store. */
  datatype World = World(
    d: Shared, video: Thread, audio: Thread,
    log: seq<Stamp>, closed: seq<Window>, advances: nat, overlapped: bool)

  datatype Event = Begin(file: nat) | Sample(track: Track, buffer: Buffer) | EosLoad(track: Track) | EosFinish(track: Track)

  function ThreadOf(w: World, t: Track): Thread {
    if t.Video? then w.video else w.audio
  }

  function Other(t: Track): Track {
    if t.Video? then Audio else Video
  }

  function SetThread(w: World, t: Track, p: Thread): World {
    if t.Video? then w.(video := p) else w.(audio := p)
  }

  // ----- callbacks -------------------------------------------------------------------------------

  predicate Dropped(b: Buffer) {
    || b.corrupted
    || b.decodeOnly
    || (b.discont && !b.delta && !b.header && !b.otherFlags)
    || (b.discont && b.delta)
    || b.pts == CLOCK_TIME_NONE
  }

  /** The first video key frame is not flagged: fragments are cut from the second one on. */
  predicate FlaggedKey(d: Shared, t: Track, b: Buffer) {
    !b.delta && t.Video? && !d.firstVideoFrame
  }

  function Stamped(d: Shared, b: Buffer): U64 {
    Wrap64(b.pts + d.basePts + d.start)
  }

  function SampleEffect(d: Shared, t: Track, b: Buffer): Shared {
    if Dropped(b) then d
    else d.(firstVideoFrame := d.firstVideoFrame && (b.delta || t.Audio?),
            maxFramePts := Max(d.maxFramePts, b.pts),
            keyFramePts := if FlaggedKey(d, t, b) then Stamped(d, b) else d.keyFramePts)
  }

  /** Second half of the end-of-stream callback, given what the first half loaded. */
  function FinishEos(d: Shared, seen: bool): Shared
    requires d.current < |d.lastFragmentTs|
  {
    if !seen then d.(eosTriggered := true)
    else d.(basePts := Wrap64(d.basePts + d.maxFramePts + NS_PER_MS),
            maxFramePts := 0,
            lastFragmentTs := d.lastFragmentTs[d.current := d.keyFramePts])
  }

  // ----- runs ------------------------------------------------------------------------------------

  /** The pipeline of the first file has just been started. */
  function Init(files: nat, start: U64): World {
    World(Shared(start, 0, 0, 0, true, false, seq(files, _ => 0), 0), Streaming, Streaming, [], [], 0, false)
  }

  predicate Enabled(w: World, e: Event) {
    match e
    case Begin(file) => file < |w.d.lastFragmentTs| && !w.video.Loaded? && !w.audio.Loaded?
    case Sample(t, _) => ThreadOf(w, t).Streaming?
    case EosLoad(t) => ThreadOf(w, t).Streaming?
    case EosFinish(t) => ThreadOf(w, t).Loaded? && w.d.current < |w.d.lastFragmentTs|
  }

  function Step(w: World, e: Event): World {
    if !Enabled(w, e) then w else
    match e
    case Begin(file) =>
      w.(d := w.d.(eosTriggered := false, current := file), video := Streaming, audio := Streaming,
         advances := 0, overlapped := false)
    case Sample(t, b) =>
      if Dropped(b) then w
      else w.(d := SampleEffect(w.d, t, b),
              log := w.log + [Stamp(Stamped(w.d, b), 0, FlaggedKey(w.d, t, b), b.mappable, w.d.current, |w.closed|, 0, b.pts)])
    case EosLoad(t) =>
      SetThread(w, t, Loaded(w.d.eosTriggered)).(overlapped := w.overlapped || ThreadOf(w, Other(t)).Loaded?)
    case EosFinish(t) =>
      var seen := ThreadOf(w, t).seen;
      var lo := w.d.start + w.d.basePts;
      SetThread(w, t, Done(seen)).(
        d := FinishEos(w.d, seen),
        closed := if seen then w.closed + [Window(lo, lo + w.d.maxFramePts)] else w.closed,
        advances := if seen then w.advances + 1 else w.advances)
  }

  function Run(w: World, es: seq<Event>): World {
    if es == [] then w else Step(Run(w, es[..|es| - 1]), es[|es| - 1])
  }

  /** No 64-bit overflow; invalid presentation times need no assumption, such frames are dropped. */
  predicate TimeOk(w: World, e: Event) {
    match e
    case Sample(_, b) => Dropped(b) || b.pts + w.d.basePts + w.d.start < TWO_64
    case EosFinish(_) => w.d.start + w.d.basePts + w.d.maxFramePts + NS_PER_MS < TWO_64
    case _ => true
  }

  predicate TimeOkRun(w: World, es: seq<Event>) {
    es == [] || (TimeOkRun(w, es[..|es| - 1]) && TimeOk(Run(w, es[..|es| - 1]), es[|es| - 1]))
  }

  // ----- the two-phase end of stream -------------------------------------------------------------

  predicate Unseen(p: Thread) { !p.Streaming? && !p.seen }

  predicate Seen(p: Thread) { !p.Streaming? && p.seen }

  /** Only a callback that has stored can be seen, and then its track has no more frames. */
  predicate EosInv(w: World) {
    && (w.d.eosTriggered <==> w.video == Done(false) || w.audio == Done(false))
    && (Seen(w.video) ==> w.audio == Done(false))
    && (Seen(w.audio) ==> w.video == Done(false))
    && w.advances == (if w.video == Done(true) || w.audio == Done(true) then 1 else 0)
    && (w.overlapped <==> Unseen(w.video) && Unseen(w.audio))
  }

  lemma StepKeepsEosInv(w: World, e: Event)
    requires EosInv(w)
    ensures EosInv(Step(w, e))
  {}

  lemma {:induction false} RunKeepsEosInv(files: nat, start: U64, es: seq<Event>)
    ensures var w := Run(Init(files, start), es); EosInv(w)
  {
    if es != [] {
      RunKeepsEosInv(files, start, es[..|es| - 1]);
      StepKeepsEosInv(Run(Init(files, start), es[..|es| - 1]), es[|es| - 1]);
    }
  }

  /** In every interleaving of the two callbacks a pipeline moves base_pts at most once; when both have
      finished it moved exactly once if and only if they did not overlap. */
  lemma AdvancesAtMostOncePerPipeline(files: nat, start: U64, es: seq<Event>)
    ensures var w := Run(Init(files, start), es);
      && w.advances <= 1
      && (w.video.Done? && w.audio.Done? ==> (w.advances == 1 <==> !w.overlapped))
  {
    RunKeepsEosInv(files, start, es);
  }

  /** The timestamp of a file is recorded, base_pts moved and an epoch closed in one and the same step,
      and no track delivers a frame afterwards in that pipeline. */
  lemma RecordingStep(w: World, e: Event)
    requires EosInv(w)
    ensures var w' := Step(w, e);
      if w'.advances > w.advances then
        && e.EosFinish? && w'.closed == w.closed + [Window(w.d.start + w.d.basePts, w.d.start + w.d.basePts + w.d.maxFramePts)]
        && w'.d.lastFragmentTs == w.d.lastFragmentTs[w.d.current := w.d.keyFramePts]
        && w'.video.Done? && w'.audio.Done?
      else
        w'.d.lastFragmentTs == w.d.lastFragmentTs && w'.d.basePts == w.d.basePts && w'.closed == w.closed
  {}

  // ----- which buffers become frames -------------------------------------------------------------

  /** Exactly these buffers are stamped: intact ones with a valid presentation time, and at a discontinuity
      only a buffer that is no delta and is marked as something else besides. The log keeps the buffer's own
      presentation time beside the stamp; any other buffer changes nothing. */
  lemma StampedIff(w: World, t: Track, b: Buffer)
    requires ThreadOf(w, t).Streaming?
    ensures var w' := Step(w, Sample(t, b));
      if !b.corrupted && !b.decodeOnly && b.pts != CLOCK_TIME_NONE && (b.discont ==> !b.delta && (b.header || b.otherFlags)) then
        && |w'.log| == |w.log| + 1 && w'.log[..|w.log|] == w.log
        && var s := w'.log[|w.log|];
           && s.pts == b.pts && s.put == b.mappable && s.epoch == |w.closed| && s.file == w.d.current
           && s.ts == Stamped(w.d, b) && (s.key <==> !b.delta && t.Video? && !w.d.firstVideoFrame)
      else w' == w
  {}

  // ----- timestamps ------------------------------------------------------------------------------

  ghost predicate TimeInv(w: World) {
    Framed(w.log, w.closed, w.d.start, w.d.basePts, w.d.maxFramePts)
  }

  lemma SampleKeepsTimeInv(w: World, t: Track, b: Buffer)
    requires TimeInv(w) && !Dropped(b) && b.pts + w.d.basePts + w.d.start < TWO_64
    ensures TimeInv(Step(w, Sample(t, b))) && Step(w, Sample(t, b)).d.start == w.d.start
  {
    var w' := Step(w, Sample(t, b));
    if Enabled(w, Sample(t, b)) {
      WrapIdentity(b.pts + w.d.basePts + w.d.start);
      StampKeepsFramed(w.log, w.closed, w.d.start, w.d.basePts, w.d.maxFramePts, w'.log[|w.log|], b.pts);
    }
  }

  lemma FinishKeepsTimeInv(w: World, t: Track)
    requires TimeInv(w) && w.d.start + w.d.basePts + w.d.maxFramePts + NS_PER_MS < TWO_64
    ensures TimeInv(Step(w, EosFinish(t))) && Step(w, EosFinish(t)).d.start == w.d.start
  {
    WrapIdentity(w.d.basePts + w.d.maxFramePts + NS_PER_MS);
    if Enabled(w, EosFinish(t)) && ThreadOf(w, t).seen {
      EndMove(w, Step(w, EosFinish(t)));
    }
  }

  lemma EndMove(w: World, w': World)
    requires TimeInv(w) && w'.log == w.log && w'.d.start == w.d.start
    requires w'.closed == w.closed + [Window(w.d.start + w.d.basePts, w.d.start + w.d.basePts + w.d.maxFramePts)]
    requires w'.d.basePts == w.d.basePts + w.d.maxFramePts + NS_PER_MS && w'.d.maxFramePts == 0
    ensures TimeInv(w')
  {
    AdvanceKeepsFramed(w.log, w.closed, w.d.start, w.d.basePts, w.d.maxFramePts, w'.d.basePts);
  }

  lemma StepKeepsTimeInv(w: World, e: Event)
    requires TimeInv(w) && TimeOk(w, e)
    ensures TimeInv(Step(w, e)) && Step(w, e).d.start == w.d.start
  {
    match e
    case Begin(_) =>
    case EosLoad(_) =>
    case Sample(t, b) => if !Dropped(b) { SampleKeepsTimeInv(w, t, b); }
    case EosFinish(t) => FinishKeepsTimeInv(w, t);
  }

  lemma {:induction false} RunKeepsTimeInv(w: World, es: seq<Event>)
    requires TimeInv(w) && TimeOkRun(w, es)
    ensures TimeInv(Run(w, es)) && Run(w, es).d.start == w.d.start
  {
    if es != [] {
      RunKeepsTimeInv(w, es[..|es| - 1]);
      StepKeepsTimeInv(Run(w, es[..|es| - 1]), es[|es| - 1]);
    }
  }

  /** In every interleaving, frames of both tracks lie in the windows of their epochs, 1 ms apart. */
  lemma {:induction false} EpochsNeverOverlap(files: nat, start: U64, es: seq<Event>)
    requires TimeOkRun(Init(files, start), es)
    ensures var w := Run(Init(files, start), es);
      w.d.start == start && Framed(w.log, w.closed, start, w.d.basePts, w.d.maxFramePts) && Separated(w.log)
  {
    var w := Run(Init(files, start), es);
    RunKeepsTimeInv(Init(files, start), es);
    FramedImpliesSeparated(w.log, w.closed, start, w.d.basePts, w.d.maxFramePts);
  }

  ghost predicate PlaceInv(w: World) {
    Placed(w.log, |w.closed|, w.d.start, w.d.basePts, w.d.maxFramePts)
  }

  lemma SampleKeepsPlaceInv(w: World, t: Track, b: Buffer)
    requires PlaceInv(w) && !Dropped(b) && b.pts + w.d.basePts + w.d.start < TWO_64
    ensures PlaceInv(Step(w, Sample(t, b)))
  {
    var w' := Step(w, Sample(t, b));
    if Enabled(w, Sample(t, b)) {
      WrapIdentity(b.pts + w.d.basePts + w.d.start);
      StampKeepsPlaced(w.log, w.d.start, w.d.basePts, w.d.maxFramePts, w'.log[|w.log|]);
    }
  }

  lemma FinishKeepsPlaceInv(w: World, t: Track)
    requires PlaceInv(w) && w.d.start + w.d.basePts + w.d.maxFramePts + NS_PER_MS < TWO_64
    ensures PlaceInv(Step(w, EosFinish(t)))
  {
    WrapIdentity(w.d.basePts + w.d.maxFramePts + NS_PER_MS);
    AdvanceKeepsPlaced(w.log, |w.closed|, w.d.start, w.d.basePts, w.d.maxFramePts);
  }

  /** Frames of both tracks keep their exact place, measured from the beginning of their common epoch. */
  lemma {:induction false} FramesKeepTheirPlace(files: nat, start: U64, es: seq<Event>)
    requires TimeOkRun(Init(files, start), es)
    ensures var w := Run(Init(files, start), es);
      w.d.start == start && PlaceInv(w)
  {
    if es != [] {
      var w := Run(Init(files, start), es[..|es| - 1]);
      FramesKeepTheirPlace(files, start, es[..|es| - 1]);
      match es[|es| - 1]
      case Begin(_) =>
      case EosLoad(_) =>
      case Sample(t, b) => if !Dropped(b) { SampleKeepsPlaceInv(w, t, b); }
      case EosFinish(t) => FinishKeepsPlaceInv(w, t);
    }
  }

  function Finishes(es: seq<Event>): nat {
    if es == [] then 0 else Finishes(es[..|es| - 1]) + if es[|es| - 1].EosFinish? then 1 else 0
  }

  predicate BoundedEvent(e: Event, bound: nat) {
    e.Sample? && !Dropped(e.buffer) ==> e.buffer.pts <= bound
  }

  ghost predicate PtsBounded(es: seq<Event>, bound: nat) {
    forall k :: 0 <= k < |es| ==> BoundedEvent(es[k], bound)
  }

  ghost predicate WithinBudget(w: World, start: U64, ends: nat, bound: nat) {
    w.d.start == start && w.d.basePts <= Budget(ends, bound) && w.d.maxFramePts <= bound
  }

  lemma BudgetStep(w: World, e: Event, start: U64, ends: nat, bound: nat)
    requires WithinBudget(w, start, ends, bound) && BoundedEvent(e, bound)
    requires start + Budget(ends + 1, bound) < TWO_64
    ensures TimeOk(w, e)
    ensures WithinBudget(Step(w, e), start, ends + if e.EosFinish? then 1 else 0, bound)
  {
    WrapIdentity(w.d.basePts + w.d.maxFramePts + NS_PER_MS);
  }

  lemma {:induction false} BudgetCoversRun(files: nat, start: U64, es: seq<Event>, bound: nat)
    requires PtsBounded(es, bound)
    requires start + Budget(Finishes(es) + 1, bound) < TWO_64
    ensures TimeOkRun(Init(files, start), es)
    ensures WithinBudget(Run(Init(files, start), es), start, Finishes(es), bound)
  {
    if es != [] {
      var front, last := es[..|es| - 1], es[|es| - 1];
      assert Finishes(es) == Finishes(front) + if last.EosFinish? then 1 else 0;
      assert Budget(Finishes(front) + 1, bound) <= Budget(Finishes(es) + 1, bound);
      BudgetCoversRun(files, start, front, bound);
      BudgetStep(Run(Init(files, start), front), last, start, Finishes(front), bound);
    }
  }

  /** As with one track: a bound on presentation times and the number of ends rule out every overflow. */
  lemma BudgetRulesOutOverflow(files: nat, start: U64, es: seq<Event>, bound: nat)
    requires PtsBounded(es, bound)
    requires start + (Finishes(es) + 1) * (bound + NS_PER_MS) < TWO_64
    ensures TimeOkRun(Init(files, start), es)
  {
    BudgetIsProduct(Finishes(es) + 1, bound);
    BudgetCoversRun(files, start, es, bound);
  }

  // ----- which key frame is recorded -------------------------------------------------------------

  predicate IsVideoKey(w: World, e: Event) {
    e.Sample? && e.track.Video? && Enabled(w, e) && !Dropped(e.buffer) && !e.buffer.delta
  }

  /** Video key frames delivered over a run. */
  function VideoKeys(w: World, es: seq<Event>): nat {
    if es == [] then 0
    else VideoKeys(w, es[..|es| - 1]) + if IsVideoKey(Run(w, es[..|es| - 1]), es[|es| - 1]) then 1 else 0
  }

  function FlaggedFrames(log: seq<Stamp>): nat {
    if log == [] then 0 else FlaggedFrames(log[..|log| - 1]) + if log[|log| - 1].key then 1 else 0
  }

  /** Time of the last flagged frame, 0 if there is none. */
  function LastFlagged(log: seq<Stamp>): U64 {
    if log == [] then 0 else if log[|log| - 1].key then log[|log| - 1].ts else LastFlagged(log[..|log| - 1])
  }

  lemma FlaggedAppends(log: seq<Stamp>, s: Stamp)
    ensures FlaggedFrames(log + [s]) == FlaggedFrames(log) + if s.key then 1 else 0
    ensures LastFlagged(log + [s]) == if s.key then s.ts else LastFlagged(log)
  {
    assert (log + [s])[..|log|] == log;
  }

  lemma StepFlags(w: World, e: Event)
    requires w.d.keyFramePts == LastFlagged(w.log)
    ensures var w' := Step(w, e);
      && w'.d.keyFramePts == LastFlagged(w'.log)
      && w'.d.firstVideoFrame == (w.d.firstVideoFrame && !IsVideoKey(w, e))
      && FlaggedFrames(w'.log) == FlaggedFrames(w.log) + if IsVideoKey(w, e) && !w.d.firstVideoFrame then 1 else 0
  {
    var w' := Step(w, e);
    if |w'.log| > |w.log| {
      FlaggedAppends(w.log, w'.log[|w.log|]);
    }
  }

  /** What an end of stream records is the last flagged key frame, and of all video key frames of the run,
      whatever their files, exactly the first is not flagged. So a record is nonzero only from the second
      video key frame on, and a first file with a single one records nothing an ACK could match. */
  lemma {:induction false} RecordedIsLastFlagged(files: nat, start: U64, es: seq<Event>)
    ensures var w := Run(Init(files, start), es);
      var n := VideoKeys(Init(files, start), es);
      && w.d.keyFramePts == LastFlagged(w.log)
      && (w.d.firstVideoFrame <==> n == 0)
      && FlaggedFrames(w.log) == (if n == 0 then 0 else n - 1)
      && (n <= 1 ==> w.d.keyFramePts == 0)
  {
    if es != [] {
      RecordedIsLastFlagged(files, start, es[..|es| - 1]);
      StepFlags(Run(Init(files, start), es[..|es| - 1]), es[|es| - 1]);
    }
    NoneFlagged(Run(Init(files, start), es).log);
  }

  lemma {:induction false} NoneFlagged(log: seq<Stamp>)
    ensures FlaggedFrames(log) == 0 ==> LastFlagged(log) == 0
  {
    if log != [] {
      NoneFlagged(log[..|log| - 1]);
    }
  }

  // ----- epochs and pipelines --------------------------------------------------------------------

  /** Once base_pts has moved, the pipeline's frames belong to closed epochs. */
  ghost predicate ClosedInv(w: World) {
    forall k :: 0 <= k < |w.log| ==> w.log[k].epoch + w.advances <= |w.closed|
  }

  lemma StepKeepsClosedInv(w: World, e: Event)
    requires EosInv(w) && ClosedInv(w)
    ensures ClosedInv(Step(w, e))
  {}

  lemma {:induction false} RunKeepsClosedInv(files: nat, start: U64, es: seq<Event>)
    ensures ClosedInv(Run(Init(files, start), es))
  {
    if es != [] {
      RunKeepsClosedInv(files, start, es[..|es| - 1]);
      RunKeepsEosInv(files, start, es[..|es| - 1]);
      StepKeepsClosedInv(Run(Init(files, start), es[..|es| - 1]), es[|es| - 1]);
    }
  }

  ghost predicate Extends(w: World, w': World) {
    && w.log <= w'.log && |w.closed| <= |w'.closed|
    && forall k :: |w.log| <= k < |w'.log| ==> |w.closed| <= w'.log[k].epoch
  }

  lemma {:induction false} RunExtends(w: World, more: seq<Event>)
    ensures Extends(w, Run(w, more))
  {
    if more != [] {
      RunExtends(w, more[..|more| - 1]);
    }
  }

  /** Every later frame lies at least 1 ms above every earlier one, after every rounding. */
  ghost predicate AllBelow(log: seq<Stamp>, log': seq<Stamp>) {
    forall i, j :: 0 <= i < |log| && |log| <= j < |log'| ==> Below(log[i].ts, log'[j].ts)
  }

  lemma CompleteEndSeparates(w: World, more: seq<Event>)
    requires TimeInv(w) && ClosedInv(w) && w.advances == 1 && TimeOkRun(w, more)
    ensures AllBelow(w.log, Run(w, more).log)
  {
    var w' := Run(w, more);
    RunKeepsTimeInv(w, more);
    RunExtends(w, more);
    FramedImpliesSeparated(w'.log, w'.closed, w'.d.start, w'.d.basePts, w'.d.maxFramePts);
    forall i, j | 0 <= i < |w.log| && |w.log| <= j < |w'.log|
      ensures Below(w.log[i].ts, w'.log[j].ts)
    {
      assert w'.log[i] == w.log[i];
      assert w'.log[i].epoch < w'.log[j].epoch;
    }
  }

  lemma RunAppends(w: World, es: seq<Event>, e: Event)
    ensures Run(w, es + [e]) == Step(Run(w, es), e)
    ensures TimeOkRun(w, es + [e]) <==> TimeOkRun(w, es) && TimeOk(Run(w, es), e)
  {
    assert (es + [e])[..|es|] == es;
  }

  const FIRST_FRAME: Event := Sample(Video, Buffer(false, false, false, false, false, false, 0, 0, true))

  /** The next file at its very first presentation time. */
  function NextFile(): seq<Event> {
    [Begin(0)] + [FIRST_FRAME]
  }

  lemma NextBegin(w: World)
    requires w.video.Done? && w.audio.Done? && w.d.lastFragmentTs != []
    ensures var w' := Step(w, Begin(0));
      w'.video.Streaming? && w'.log == w.log && w'.d.basePts == w.d.basePts && w'.d.start == w.d.start
  {}

  lemma FirstFrame(w: World)
    requires w.video.Streaming? && w.d.basePts + w.d.start < TWO_64
    ensures TimeOk(w, FIRST_FRAME)
    ensures var log := Step(w, FIRST_FRAME).log; |log| == |w.log| + 1 && log[|w.log|].ts == w.d.basePts + w.d.start
  {
    WrapIdentity(w.d.basePts + w.d.start);
  }

  lemma SharedWindowIsNotBelow(log: seq<Stamp>, log': seq<Stamp>, i: nat, j: nat)
    requires i < |log| <= j < |log'| && log'[j].ts < log[i].ts + NS_PER_MS
    ensures !AllBelow(log, log')
  {
    assert !Below(log[i].ts, log'[j].ts);
  }

  lemma NextFileStamp(w: World)
    requires w.video.Done? && w.audio.Done? && w.d.lastFragmentTs != [] && w.d.basePts + w.d.start < TWO_64
    ensures TimeOkRun(w, NextFile())
    ensures var log := Run(w, NextFile()).log; |log| == |w.log| + 1 && log[|w.log|].ts == w.d.basePts + w.d.start
  {
    var w1 := Step(w, Begin(0));
    NextBegin(w);
    FirstFrame(w1);
    RunAppends(w, [], Begin(0));
    assert [] + [Begin(0)] == [Begin(0)];
    RunAppends(w, [Begin(0)], FIRST_FRAME);
    assert Run(w, [Begin(0)]) == w1;
  }

  lemma OverlappedEndShares(w: World, k: nat)
    requires TimeInv(w) && w.video.Done? && w.audio.Done? && w.d.lastFragmentTs != []
    requires k < |w.log| && w.log[k].epoch == |w.closed|
    ensures TimeOkRun(w, NextFile()) && !AllBelow(w.log, Run(w, NextFile()).log)
  {
    assert Inside(w.log[k], w.closed, w.d.start, w.d.basePts, w.d.maxFramePts);
    NextFileStamp(w);
    SharedWindowIsNotBelow(w.log, Run(w, NextFile()).log, k, |w.log|);
  }

  /** Both callbacks load the flag before either stores. */
  function OverlappingEnds(): seq<Event> {
    [FIRST_FRAME] + [EosLoad(Video)] + [EosLoad(Audio)] + [EosFinish(Video)] + [EosFinish(Audio)]
  }

  lemma AfterOverlappingEnds(files: nat, start: U64)
    requires files > 0 && start + NS_PER_MS < TWO_64
    ensures var w := Run(Init(files, start), OverlappingEnds());
      && TimeOkRun(Init(files, start), OverlappingEnds())
      && w.overlapped && w.video.Done? && w.audio.Done? && w.advances == 0 && w.closed == [] && w.d.basePts == 0
      && |w.log| == 1 && w.log[0].epoch == 0
  {
    var w0 := Init(files, start);
    FirstFrame(w0);
    RunAppends(w0, [], FIRST_FRAME);
    assert [] + [FIRST_FRAME] == [FIRST_FRAME];
    RunAppends(w0, [FIRST_FRAME], EosLoad(Video));
    RunAppends(w0, [FIRST_FRAME] + [EosLoad(Video)], EosLoad(Audio));
    RunAppends(w0, [FIRST_FRAME] + [EosLoad(Video)] + [EosLoad(Audio)], EosFinish(Video));
    RunAppends(w0, [FIRST_FRAME] + [EosLoad(Video)] + [EosLoad(Audio)] + [EosFinish(Video)], EosFinish(Audio));
  }

  /** The overlap can happen, and then the next file does not lie above the first. */
  lemma {:induction false} OverlapHappens(files: nat, start: U64)
    requires files > 0 && start + NS_PER_MS < TWO_64
    ensures TimeOkRun(Init(files, start), OverlappingEnds())
    ensures var w := Run(Init(files, start), OverlappingEnds());
      && w.overlapped && w.video.Done? && w.audio.Done? && w.advances == 0
      && TimeOkRun(w, NextFile()) && !AllBelow(w.log, Run(w, NextFile()).log)
  {
    var w := Run(Init(files, start), OverlappingEnds());
    AfterOverlappingEnds(files, start);
    RunKeepsTimeInv(Init(files, start), OverlappingEnds());
    FilesStay(files, start, OverlappingEnds());
    OverlappedEndShares(w, 0);
  }

  /** When both tracks have ended, the frames so far stay below all frames of all later files if and only
      if the two end-of-stream callbacks did not overlap; after an overlap the next file shares the window. */
  lemma {:induction false} LaterFilesLieAboveIff(files: nat, start: U64, es: seq<Event>)
    requires files > 0 && TimeOkRun(Init(files, start), es)
    requires var w := Run(Init(files, start), es);
      w.video.Done? && w.audio.Done? && exists k :: 0 <= k < |w.log| && w.log[k].epoch + w.advances == |w.closed|
    ensures var w := Run(Init(files, start), es);
      !w.overlapped <==> forall more :: TimeOkRun(w, more) ==> AllBelow(w.log, Run(w, more).log)
  {
    var w := Run(Init(files, start), es);
    RunKeepsEosInv(files, start, es);
    RunKeepsClosedInv(files, start, es);
    RunKeepsTimeInv(Init(files, start), es);
    FilesStay(files, start, es);
    if w.overlapped {
      var k :| 0 <= k < |w.log| && w.log[k].epoch + w.advances == |w.closed|;
      OverlappedEndShares(w, k);
    } else {
      forall more | TimeOkRun(w, more)
        ensures AllBelow(w.log, Run(w, more).log)
      {
        CompleteEndSeparates(w, more);
      }
    }
  }

  lemma {:induction false} FilesStay(files: nat, start: U64, es: seq<Event>)
    ensures |Run(Init(files, start), es).d.lastFragmentTs| == files
  {
    if es != [] {
      FilesStay(files, start, es[..|es| - 1]);
    }
  }

  // ----- the callbacks as written ----------------------------------------------------------------

  class CustomData {
    const start: U64
    var basePts: U64
    var maxFramePts: U64
    var keyFramePts: U64
    var firstVideoFrame: bool
    var eosTriggered: bool
    var lastFragmentTs: seq<U64>
    var current: nat

    ghost function Contents(): Shared
      reads this
    {
      Shared(start, basePts, maxFramePts, keyFramePts, firstVideoFrame, eosTriggered, lastFragmentTs, current)
    }

    constructor (files: nat, start: U64)
      ensures Contents() == Init(files, start).d
    {
      this.start := start;
      basePts, maxFramePts, keyFramePts := 0, 0, 0;
      firstVideoFrame, eosTriggered := true, false;
      lastFragmentTs, current := seq(files, _ => 0), 0;
    }

    method OnNewSample(track: Track, b: Buffer) returns (frame: Option<Frame>)
      modifies this
      ensures Contents() == SampleEffect(old(Contents()), track, b)
      ensures frame == if Dropped(b) || !b.mappable then None
                       else Some(Frame(FlaggedKey(old(Contents()), track, b), 0, ToUnits(Stamped(old(Contents()), b))))
    {
      if Dropped(b) {
        return None;
      }
      var key := false;
      if !b.delta && track.Video? {
        if firstVideoFrame {
          firstVideoFrame := false;
        } else {
          key := true;
        }
      }
      maxFramePts := Max(maxFramePts, b.pts);
      var pts := Wrap64(b.pts + basePts + start);
      if key {
        keyFramePts := pts;
      }
      frame := if b.mappable then Some(Frame(key, 0, ToUnits(pts))) else None;
    }

    /** First atomic part of the end-of-stream callback. */
    method LoadEos(t: Track, ghost w: World) returns (seen: bool)
      requires w.d == Contents() && ThreadOf(w, t).Streaming?
      ensures Contents() == Step(w, EosLoad(t)).d && ThreadOf(Step(w, EosLoad(t)), t) == Loaded(seen)
    {
      seen := eosTriggered;
    }

    /** The rest of it; the shared fields may have changed since the load. */
    method StoreEos(t: Track, seen: bool, ghost w: World)
      requires w.d == Contents() && ThreadOf(w, t) == Loaded(seen) && current < |lastFragmentTs|
      modifies this
      ensures Contents() == Step(w, EosFinish(t)).d
    {
      if !seen {
        eosTriggered := true;
      } else {
        basePts := Wrap64(basePts + maxFramePts + NS_PER_MS);
        maxFramePts := 0;
        lastFragmentTs := lastFragmentTs[current := keyFramePts];
      }
    }
  }
}
