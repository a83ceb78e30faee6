/** The barrier of the two-track sample: no frame before both tracks have submitted codec data. */
module StartBarrier {
  import opened Words

  const VIDEO: int := 1
  const AUDIO: int := 2
  const TOTAL_TRACKS: nat := 2

  /** Idle: between callbacks. Waiting: inside wait_for, the mutex released, holding a buffer that will be
      put or not. Stopped: returned an error. */
  datatype Thread = Idle | Waiting(puts: bool) | Stopped

  datatype World = World(
    uploading: bool, started: map<int, bool>, video: Thread, audio: Thread,
    submitted: set<int>, early: bool, put: nat)

  /** A sample arriving while the pipeline is PLAYING or not, a waiter scheduled again, or a pipeline
      for another file, after the start flags were cleared by a retry or not. `puts` is false for a buffer
      that is dropped or cannot be mapped once it is past the barrier. */
  datatype Event = Sample(track: int, playing: bool, puts: bool) | Wake(track: int, timedOut: bool) | NewPipeline(cleared: bool)

  predicate AllStarted(started: map<int, bool>) {
    |started| >= TOTAL_TRACKS && forall t :: t in started ==> started[t]
  }

  predicate HasStarted(started: map<int, bool>, t: int) {
    t in started && started[t]
  }

  function ThreadOf(w: World, t: int): Thread {
    if t == VIDEO then w.video else w.audio
  }

  function SetThread(w: World, t: int, p: Thread): World {
    if t == VIDEO then w.(video := p) else w.(audio := p)
  }

  /** Past the barrier; `put` counts the frames put, `early` remembers one put before all codec data. */
  function Pass(w: World, t: int, puts: bool): World {
    SetThread(w, t, Idle).(put := w.put + (if puts then 1 else 0),
                           early := w.early || (puts && !({VIDEO, AUDIO} <= w.submitted)))
  }

  /** How a callback leaves its critical section. */
  datatype Outcome = Passes | ReturnsOk | ReturnsError | Waits

  function EntryOutcome(uploading: bool, started: map<int, bool>, t: int, playing: bool): Outcome {
    if HasStarted(started, t) then Passes
    else if !playing then ReturnsOk
    else if AllStarted(started[t := true]) then Passes
    else if uploading then Waits
    else ReturnsOk
  }

  function WakeOutcome(started: map<int, bool>, timedOut: bool): Outcome {
    if AllStarted(started) then Passes else if timedOut then ReturnsError else Waits
  }

  function Leave(w: World, t: int, outcome: Outcome, puts: bool): World {
    match outcome
    case Passes => Pass(w, t, puts)
    case ReturnsOk => SetThread(w, t, Idle)
    case ReturnsError => SetThread(w, t, Stopped)
    case Waits => SetThread(w, t, Waiting(puts))
  }

  /** The first callback of a track submits its codec data. */
  function OnSample(w: World, t: int, playing: bool, puts: bool): World {
    var outcome := EntryOutcome(w.uploading, w.started, t, playing);
    if HasStarted(w.started, t) then Leave(w, t, outcome, puts)
    else Leave(w.(started := w.started[t := true], submitted := w.submitted + {t}), t, outcome, puts)
  }

  function OnWake(w: World, t: int, timedOut: bool): World
    requires ThreadOf(w, t).Waiting?
  {
    Leave(w, t, WakeOutcome(w.started, timedOut), ThreadOf(w, t).puts)
  }

  predicate IsTrack(t: int) { t == VIDEO || t == AUDIO }

  function Other(t: int): int {
    if t == VIDEO then AUDIO else VIDEO
  }

  function Step(w: World, e: Event): World {
    match e
    case Sample(t, playing, puts) => if IsTrack(t) && ThreadOf(w, t).Idle? then OnSample(w, t, playing, puts) else w
    case Wake(t, timedOut) => if IsTrack(t) && ThreadOf(w, t).Waiting? then OnWake(w, t, timedOut) else w
    case NewPipeline(cleared) =>
      var w' := w.(video := Idle, audio := Idle);
      if cleared then w'.(started := map[], submitted := {}) else w'
  }

  function Run(w: World, es: seq<Event>): World
    decreases es
  {
    if es == [] then w else Run(Step(w, es[0]), es[1..])
  }

  function Init(uploading: bool): World {
    World(uploading, map[], Idle, Idle, {}, false, 0)
  }

  // ----- the barrier -----------------------------------------------------------------------------

  ghost predicate Tracked(w: World) {
    && w.started.Keys <= {VIDEO, AUDIO}
    && (forall t :: t in w.submitted <==> HasStarted(w.started, t))
    && (forall t :: t in w.started ==> w.started[t])
  }

  /** Nobody is past the barrier while it is closed: a started track is still inside its first callback. */
  ghost predicate Guarded(w: World) {
    forall t :: IsTrack(t) && HasStarted(w.started, t) && ThreadOf(w, t).Idle? ==> AllStarted(w.started)
  }

  /** What the caller of a callback can check: no track delivers its first sample outside PLAYING while the
      other has delivered none, and a further file of the same session starts with the flags of every track
      or of none. */
  predicate Calm(w: World, e: Event) {
    match e
    case Sample(t, playing, _) =>
      playing || !IsTrack(t) || !ThreadOf(w, t).Idle? || HasStarted(w.started, t) || HasStarted(w.started, Other(t))
    case Wake(_, _) => true
    case NewPipeline(cleared) => cleared || w.started == map[] || AllStarted(w.started)
  }

  predicate CalmRun(w: World, es: seq<Event>)
    decreases es
  {
    es == [] || (Calm(w, es[0]) && CalmRun(Step(w, es[0]), es[1..]))
  }

  lemma AllStartedMeansBoth(w: World)
    requires Tracked(w)
    ensures AllStarted(w.started) <==> {VIDEO, AUDIO} <= w.submitted
    ensures AllStarted(w.started) <==> HasStarted(w.started, VIDEO) && HasStarted(w.started, AUDIO)
  {
    if HasStarted(w.started, VIDEO) && HasStarted(w.started, AUDIO) {
      assert w.started.Keys == {VIDEO, AUDIO};
      assert |w.started| == |w.started.Keys|;
    } else if VIDEO !in w.started {
      CardinalityBound(w.started.Keys, {AUDIO});
    } else {
      CardinalityBound(w.started.Keys, {VIDEO});
    }
  }

  lemma CardinalityBound(a: set<int>, b: set<int>)
    requires a <= b
    ensures |a| <= |b|
  {
    assert b == a + (b - a);
  }

  lemma SampleKeepsTracked(w: World, t: int)
    requires Tracked(w) && IsTrack(t)
    ensures Tracked(w.(started := w.started[t := true], submitted := w.submitted + {t}))
  {}

  lemma LeaveKeepsTracked(w: World, t: int, outcome: Outcome, puts: bool)
    requires Tracked(w)
    ensures Tracked(Leave(w, t, outcome, puts)) && Leave(w, t, outcome, puts).uploading == w.uploading
  {}

  lemma StepKeepsTracked(w: World, e: Event)
    requires Tracked(w)
    ensures Tracked(Step(w, e)) && Step(w, e).uploading == w.uploading
  {
    match e
    case Sample(t, playing, puts) =>
      if IsTrack(t) {
        SampleKeepsTracked(w, t);
        LeaveKeepsTracked(w, t, EntryOutcome(w.uploading, w.started, t, playing), puts);
        LeaveKeepsTracked(w.(started := w.started[t := true], submitted := w.submitted + {t}), t,
                          EntryOutcome(w.uploading, w.started, t, playing), puts);
      }
    case Wake(t, timedOut) =>
      if IsTrack(t) && ThreadOf(w, t).Waiting? {
        LeaveKeepsTracked(w, t, WakeOutcome(w.started, timedOut), ThreadOf(w, t).puts);
      }
    case NewPipeline(_) =>
  }

  lemma FirstSampleStarts(w: World, t: int)
    requires Tracked(w) && IsTrack(t) && !HasStarted(w.started, t)
    ensures AllStarted(w.started[t := true]) <==> HasStarted(w.started, Other(t))
  {
    SampleKeepsTracked(w, t);
    AllStartedMeansBoth(w.(started := w.started[t := true], submitted := w.submitted + {t}));
  }

  /** One step keeps the guard exactly when it is calm, and no frame is early behind the guard. */
  lemma SampleKeepsGuardedIff(w: World, t: int, playing: bool, puts: bool)
    requires w.uploading && Tracked(w) && Guarded(w) && IsTrack(t) && ThreadOf(w, t).Idle?
    ensures var w' := OnSample(w, t, playing, puts);
      (w'.early <==> w.early) && (Guarded(w') <==> Calm(w, Sample(t, playing, puts)))
  {
    AllStartedMeansBoth(w);
    if !HasStarted(w.started, t) {
      FirstSampleStarts(w, t);
      SampleKeepsTracked(w, t);
      AllStartedMeansBoth(w.(started := w.started[t := true], submitted := w.submitted + {t}));
      if !playing {
        assert HasStarted(OnSample(w, t, playing, puts).started, t);
      }
    }
  }

  lemma StepKeepsGuardedIff(w: World, e: Event)
    requires w.uploading && Tracked(w) && Guarded(w)
    ensures Guarded(Step(w, e)) <==> Calm(w, e)
    ensures Step(w, e).early <==> w.early
  {
    AllStartedMeansBoth(w);
    match e
    case Sample(t, playing, puts) =>
      if IsTrack(t) && ThreadOf(w, t).Idle? {
        SampleKeepsGuardedIff(w, t, playing, puts);
      }
    case Wake(_, _) =>
    case NewPipeline(cleared) =>
      if !cleared && w.started != map[] && !AllStarted(w.started) {
        var t :| t in w.started;
        assert IsTrack(t) && HasStarted(Step(w, e).started, t);
      }
  }

  lemma {:induction false} CalmRunStaysGuarded(w: World, es: seq<Event>)
    requires w.uploading && Tracked(w) && Guarded(w) && !w.early && CalmRun(w, es)
    ensures var w' := Run(w, es); w'.uploading && Tracked(w') && Guarded(w') && !w'.early
    decreases es
  {
    if es != [] {
      StepKeepsTracked(w, es[0]);
      StepKeepsGuardedIff(w, es[0]);
      CalmRunStaysGuarded(Step(w, es[0]), es[1..]);
    }
  }

  /** Uploading files: in every interleaving of the two threads and every time-out, no frame of any track
      is put before codec data of both, while every event is calm. */
  lemma NoFrameBeforeAllCodecData(es: seq<Event>)
    requires CalmRun(Init(true), es)
    ensures !Run(Init(true), es).early
  {
    CalmRunStaysGuarded(Init(true), es);
  }

  /** The guard is exact: from a state that breaks it, one more sample is put too early. */
  lemma GuardIsExact(w: World)
    requires w.uploading && Tracked(w) && !w.early
    ensures Guarded(w) <==> forall es :: CalmRun(w, es) ==> !Run(w, es).early
  {
    if Guarded(w) {
      forall es | CalmRun(w, es)
        ensures !Run(w, es).early
      {
        CalmRunStaysGuarded(w, es);
      }
    } else {
      var t :| IsTrack(t) && HasStarted(w.started, t) && ThreadOf(w, t).Idle? && !AllStarted(w.started);
      AllStartedMeansBoth(w);
      RunOne(w, Sample(t, true, true));
      assert CalmRun(w, [Sample(t, true, true)]) && Run(w, [Sample(t, true, true)]).early;
    }
  }

  /** And so is the condition on runs: the first event that is not calm lets a calm continuation put a frame
      too early, and no other event does. */
  lemma {:induction false} CalmIsExact(es: seq<Event>, e: Event)
    requires CalmRun(Init(true), es)
    ensures var w := Run(Init(true), es);
      Calm(w, e) <==> forall more :: CalmRun(Step(w, e), more) ==> !Run(Step(w, e), more).early
  {
    var w := Run(Init(true), es);
    CalmRunStaysGuarded(Init(true), es);
    StepKeepsGuardedIff(w, e);
    StepKeepsTracked(w, e);
    GuardIsExact(Step(w, e));
  }

  lemma RunOne(w: World, e: Event)
    ensures Run(w, [e]) == Step(w, e)
    ensures CalmRun(w, [e]) <==> Calm(w, e)
  {}

  // ----- live sources: nobody waits ---------------------------------------------------------------

  predicate IsSampleOf(e: Event, t: int) {
    e.Sample? && e.track == t
  }

  /** The track had a sample before position k, or was among those started already. */
  predicate SampledBefore(begun: set<int>, es: seq<Event>, k: nat, t: int)
    requires k <= |es|
  {
    t in begun || exists j :: 0 <= j < k && IsSampleOf(es[j], t)
  }

  /** A track delivers again, a buffer that is put, while the other has delivered nothing. */
  predicate RunsAhead(begun: set<int>, es: seq<Event>, k: nat, t: int) {
    && k < |es| && IsTrack(t) && IsSampleOf(es[k], t) && es[k].puts
    && SampledBefore(begun, es, k, t) && !SampledBefore(begun, es, k, Other(t))
  }

  ghost predicate SomeoneRunsAhead(begun: set<int>, es: seq<Event>) {
    exists k: nat, t :: RunsAhead(begun, es, k, t)
  }

  predicate OnePipeline(es: seq<Event>) {
    forall k :: 0 <= k < |es| ==> !es[k].NewPipeline?
  }

  predicate LiveIdle(w: World) {
    !w.uploading && w.video.Idle? && w.audio.Idle?
  }

  function Begun(begun: set<int>, e: Event): set<int> {
    if e.Sample? && IsTrack(e.track) then begun + {e.track} else begun
  }

  /** Submitted are the tracks started, and all of them are submitted if both are. */
  lemma SubmittedAreStarted(w: World, t: int)
    requires Tracked(w) && IsTrack(t)
    ensures w.submitted == w.started.Keys
    ensures {VIDEO, AUDIO} <= w.submitted <==> t in w.submitted && Other(t) in w.submitted
  {
    forall u
      ensures u in w.submitted <==> u in w.started.Keys
    {
      assert u in w.submitted <==> HasStarted(w.started, u);
    }
  }

  lemma LiveFirstSample(w: World, t: int, playing: bool, puts: bool)
    requires LiveIdle(w) && Tracked(w) && IsTrack(t) && t !in w.started
    ensures var w' := OnSample(w, t, playing, puts);
      w' == w.(started := w.started[t := true], submitted := w.submitted + {t}, put := w'.put)
  {
    var w1 := w.(started := w.started[t := true], submitted := w.submitted + {t});
    SampleKeepsTracked(w, t);
    AllStartedMeansBoth(w1);
  }

  lemma LiveSample(w: World, t: int, playing: bool, puts: bool)
    requires LiveIdle(w) && Tracked(w) && IsTrack(t)
    ensures var w' := OnSample(w, t, playing, puts);
      && LiveIdle(w') && w'.started.Keys == w.started.Keys + {t}
      && (w'.early <==> w.early || (puts && t in w.started.Keys && Other(t) !in w.started.Keys))
  {
    if t in w.started {
      SubmittedAreStarted(w, t);
    } else {
      LiveFirstSample(w, t, playing, puts);
    }
  }

  lemma RunsAheadNow(begun: set<int>, e: Event, t: int)
    ensures RunsAhead(begun, [e], 0, t) <==> IsTrack(t) && IsSampleOf(e, t) && e.puts && t in begun && Other(t) !in begun
  {}

  lemma LiveStep(w: World, e: Event)
    requires LiveIdle(w) && Tracked(w) && !e.NewPipeline?
    ensures var w' := Step(w, e);
      && LiveIdle(w') && Tracked(w') && w'.started.Keys == Begun(w.started.Keys, e)
      && (w'.early <==> w.early || (e.Sample? && RunsAhead(w.started.Keys, [e], 0, e.track)))
  {
    StepKeepsTracked(w, e);
    if e.Sample? {
      RunsAheadNow(w.started.Keys, e, e.track);
      if IsTrack(e.track) {
        LiveSample(w, e.track, e.playing, e.puts);
      }
    }
  }

  lemma RunsAheadShifts(begun: set<int>, es: seq<Event>, k: nat, t: int)
    requires es != [] && IsTrack(t)
    ensures RunsAhead(begun, es, k + 1, t) <==> RunsAhead(Begun(begun, es[0]), es[1..], k, t)
    ensures RunsAhead(begun, es, 0, t) <==> RunsAhead(begun, [es[0]], 0, t)
  {
    if k < |es| - 1 {
      SampledShifts(begun, es, k, t);
      SampledShifts(begun, es, k, Other(t));
    }
  }

  lemma SampledShifts(begun: set<int>, es: seq<Event>, k: nat, t: int)
    requires k < |es| && IsTrack(t)
    ensures SampledBefore(begun, es, k + 1, t) <==> SampledBefore(Begun(begun, es[0]), es[1..], k, t)
  {
    if j :| 0 <= j < k + 1 && IsSampleOf(es[j], t) {
      if j > 0 {
        assert IsSampleOf(es[1..][j - 1], t);
      }
    }
    if j :| 0 <= j < k && IsSampleOf(es[1..][j], t) {
      assert IsSampleOf(es[j + 1], t);
    }
  }

  lemma {:induction false} LiveRunIsEarlyIff(w: World, es: seq<Event>)
    requires LiveIdle(w) && Tracked(w) && OnePipeline(es)
    ensures Run(w, es).early <==> w.early || SomeoneRunsAhead(w.started.Keys, es)
    decreases es
  {
    if es != [] {
      var begun := w.started.Keys;
      LiveStep(w, es[0]);
      assert forall k :: 0 <= k < |es[1..]| ==> es[1..][k] == es[k + 1];
      LiveRunIsEarlyIff(Step(w, es[0]), es[1..]);
      if k: nat, t :| RunsAhead(begun, es, k, t) {
        RunsAheadShifts(begun, es, if k > 0 then k - 1 else 0, t);
      }
      if k: nat, t :| RunsAhead(Begun(begun, es[0]), es[1..], k, t) {
        RunsAheadShifts(begun, es, k, t);
        assert RunsAhead(begun, es, k + 1, t);
      }
      if es[0].Sample? && RunsAhead(begun, [es[0]], 0, es[0].track) {
        RunsAheadShifts(begun, es, 0, es[0].track);
        assert RunsAhead(begun, es, 0, es[0].track);
      }
    }
  }

  /** For a live source the barrier holds nobody back: in every interleaving, PLAYING or not, a frame is
      put before all codec data if and only if one track delivers a buffer that is put, not as its first, before
      the other has delivered any. */
  lemma LiveIsEarlyIff(es: seq<Event>)
    requires OnePipeline(es)
    ensures Run(Init(false), es).early <==> SomeoneRunsAhead({}, es)
  {
    assert Init(false).started.Keys == {};
    LiveRunIsEarlyIff(Init(false), es);
  }

  // ----- what the barrier lets through -----------------------------------------------------------

  predicate Submitted(w: World, t: int) { t in w.submitted }

  /** A sample passes if its track had submitted codec data before, or if it is the last of both to do so in
      PLAYING; a first sample of an upload in PLAYING is held while the other track is missing; any other
      first sample returns without a frame. None is ever refused. */
  lemma SampleIsAnswered(w: World, t: int, playing: bool, puts: bool)
    requires Tracked(w) && IsTrack(t) && ThreadOf(w, t).Idle?
    ensures var w' := Step(w, Sample(t, playing, puts));
      var passes := Submitted(w, t) || (playing && Submitted(w, Other(t)));
      var held := w.uploading && playing && !Submitted(w, t) && !Submitted(w, Other(t));
      && w'.submitted == w.submitted + {t} && ThreadOf(w', Other(t)) == ThreadOf(w, Other(t))
      && w'.put == w.put + (if passes && puts then 1 else 0)
      && ThreadOf(w', t) == (if held then Waiting(puts) else Idle)
  {
    if !HasStarted(w.started, t) {
      FirstSampleStarts(w, t);
    }
  }

  /** A waiter passes if both tracks have submitted, whether its time is up or not; otherwise it fails when
      its time is up and waits on until then. */
  lemma WaiterIsAnswered(w: World, t: int, timedOut: bool)
    requires Tracked(w) && IsTrack(t) && ThreadOf(w, t).Waiting?
    ensures var w' := Step(w, Wake(t, timedOut));
      var open := Submitted(w, VIDEO) && Submitted(w, AUDIO);
      && w'.submitted == w.submitted && ThreadOf(w', Other(t)) == ThreadOf(w, Other(t))
      && w'.put == w.put + (if open && ThreadOf(w, t).puts then 1 else 0)
      && ThreadOf(w', t) == (if open then Idle else if timedOut then Stopped else ThreadOf(w, t))
  {
    AllStartedMeansBoth(w);
  }

  /** A buffer that is put reaches the front of its callback: a sample of a track between callbacks, or the
      buffer of a waiter that runs again. */
  predicate Offers(w: World, e: Event) {
    match e
    case Sample(t, _, puts) => IsTrack(t) && ThreadOf(w, t).Idle? && puts
    case Wake(t, _) => IsTrack(t) && ThreadOf(w, t).Waiting? && ThreadOf(w, t).puts
    case NewPipeline(_) => false
  }

  function Offered(w: World, es: seq<Event>): nat
    decreases es
  {
    if es == [] then 0 else (if Offers(w, es[0]) then 1 else 0) + Offered(Step(w, es[0]), es[1..])
  }

  predicate NeverCleared(es: seq<Event>) {
    forall k :: 0 <= k < |es| ==> es[k] != NewPipeline(true)
  }

  predicate Open(w: World) {
    Submitted(w, VIDEO) && Submitted(w, AUDIO)
  }

  lemma OpenStep(w: World, e: Event)
    requires Tracked(w) && Open(w) && e != NewPipeline(true)
    ensures var w' := Step(w, e);
      && Tracked(w') && Open(w')
      && w'.put == w.put + (if Offers(w, e) then 1 else 0)
      && (forall t :: IsTrack(t) && ThreadOf(w, t).Idle? ==> ThreadOf(w', t).Idle?)
      && (forall t :: IsTrack(t) && ThreadOf(w', t).Stopped? ==> ThreadOf(w, t).Stopped?)
  {
    StepKeepsTracked(w, e);
    match e
    case Sample(t, playing, puts) =>
      if IsTrack(t) && ThreadOf(w, t).Idle? { SampleIsAnswered(w, t, playing, puts); }
    case Wake(t, timedOut) =>
      if IsTrack(t) && ThreadOf(w, t).Waiting? { WaiterIsAnswered(w, t, timedOut); }
    case NewPipeline(_) =>
  }

  /** Once both tracks have submitted codec data the barrier loses nothing: in every continuation without a
      cleared pipeline, every buffer offered is put, no track between callbacks is ever held, and none stops. */
  lemma {:induction false} OpenBarrierPutsAll(w: World, es: seq<Event>)
    requires Tracked(w) && Open(w) && NeverCleared(es)
    ensures var w' := Run(w, es);
      && w'.put == w.put + Offered(w, es)
      && (forall t :: IsTrack(t) && ThreadOf(w, t).Idle? ==> ThreadOf(w', t).Idle?)
      && (forall t :: IsTrack(t) && ThreadOf(w', t).Stopped? ==> ThreadOf(w, t).Stopped?)
    decreases es
  {
    if es != [] {
      OpenStep(w, es[0]);
      OpenBarrierPutsAll(Step(w, es[0]), es[1..]);
    }
  }

  function PutSamples(es: seq<Event>): nat {
    if es == [] then 0 else (if es[0].Sample? && IsTrack(es[0].track) && es[0].puts then 1 else 0) + PutSamples(es[1..])
  }

  /** With both tracks between callbacks that is every sample of either track that is not dropped. */
  lemma {:induction false} OpenBarrierPutsEverySample(w: World, es: seq<Event>)
    requires Tracked(w) && Open(w) && w.video.Idle? && w.audio.Idle? && NeverCleared(es)
    ensures Run(w, es).put == w.put + PutSamples(es)
    decreases es
  {
    if es != [] {
      OpenStep(w, es[0]);
      assert ThreadOf(Step(w, es[0]), VIDEO).Idle? && ThreadOf(Step(w, es[0]), AUDIO).Idle?;
      OpenBarrierPutsEverySample(Step(w, es[0]), es[1..]);
    }
  }

  // ----- each assumption is needed ---------------------------------------------------------------

  /** The guard is gone after a first sample outside PLAYING or of a live source, and when the next file
      follows a time-out without a reset. */
  lemma GuardCanBeLost(t: int, puts: bool)
    requires IsTrack(t)
    ensures !Guarded(Step(Init(true), Sample(t, false, puts)))
    ensures !Guarded(Step(Init(false), Sample(t, true, puts)))
    ensures !Guarded(Step(Step(Step(Init(true), Sample(t, true, puts)), Wake(t, true)), NewPipeline(false)))
  {}

  lemma RunTwo(w: World, e: Event, more: seq<Event>)
    ensures Run(w, [e] + more) == Run(Step(w, e), more)
  {
    assert ([e] + more)[1..] == more;
  }

  /** And then the track's next buffer is put too early, whether its first was put or not. */
  lemma LostGuardPutsEarly(t: int, puts: bool)
    requires IsTrack(t)
    ensures Run(Init(true), [Sample(t, false, puts)] + [Sample(t, true, true)]).early
    ensures Run(Init(false), [Sample(t, true, puts)] + [Sample(t, true, true)]).early
    ensures Run(Init(true), [Sample(t, true, puts)] + ([Wake(t, true)] + ([NewPipeline(false)] + [Sample(t, true, true)]))).early
  {
    var one := map[t := true];
    assert one.Keys == {t} && |one| == 1;
    assert map[][t := true] == one;
    assert !AllStarted(one);
    var first, again := Sample(t, true, puts), Sample(t, true, true);
    RunTwo(Init(true), Sample(t, false, puts), [again]);
    RunOne(Step(Init(true), Sample(t, false, puts)), again);
    RunTwo(Init(false), first, [again]);
    RunOne(Step(Init(false), first), again);
    var w := Step(Init(true), first);
    RunTwo(Init(true), first, [Wake(t, true)] + ([NewPipeline(false)] + [again]));
    RunTwo(w, Wake(t, true), [NewPipeline(false)] + [again]);
    RunTwo(Step(w, Wake(t, true)), NewPipeline(false), [again]);
    RunOne(Step(Step(w, Wake(t, true)), NewPipeline(false)), again);
  }

  // ----- the callback as written -----------------------------------------------------------------

  /** The check as the sample writes it: a size test and a loop that stops at the first false flag. */
  method AllStreamStarted(started: map<int, bool>, total: nat) returns (all: bool)
    ensures all <==> |started| >= total && forall t :: t in started ==> started[t]
  {
    all := true;
    if |started| < total {
      all := false;
    } else {
      var rest := started.Keys;
      while rest != {}
        invariant rest <= started.Keys && all
        invariant forall t :: t in started && t !in rest ==> started[t]
      {
        var t := Least(rest);
        if !started[t] {
          all := false;
          break;
        }
        rest := rest - {t};
      }
    }
  }

  class Barrier {
    const uploading: bool
    var started: map<int, bool>

    constructor (uploading: bool)
      ensures this.uploading == uploading && started == map[]
    {
      this.uploading, started := uploading, map[];
    }

    /** From taking the mutex to the wait, or to the end of the callback. */
    method Enter(t: int, playing: bool) returns (outcome: Outcome)
      modifies this
      ensures started == old(started)[t := true]
      ensures outcome == EntryOutcome(uploading, old(started), t, playing)
    {
      outcome := Passes;
      if !(t in started && started[t]) {
        started := started[t := true];
        if !playing {
          return ReturnsOk;
        }
        var all := AllStreamStarted(started, TOTAL_TRACKS);
        if !all {
          outcome := if uploading then Waits else ReturnsOk;
        }
      }
    }

    /** The waiter runs again: its predicate is tested first, the time-out only after. */
    method Resume(timedOut: bool) returns (outcome: Outcome)
      ensures outcome == WakeOutcome(started, timedOut)
    {
      var all := AllStreamStarted(started, TOTAL_TRACKS);
      outcome := if all then Passes else if timedOut then ReturnsError else Waits;
    }
  }
}
