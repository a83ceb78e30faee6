/** The upload sample as it is written: shared fields, callbacks that update them, and the driver's loops. */
module FileUploadSession {
  import opened Words
  import opened FileUpload
  import opened FileUploadProtocol
  import FileUploadDriver

  class CustomData {
    const fileSource: bool
    const absoluteTimes: bool
    const start: U64
    var lastFragmentTs: seq<U64>
    var current: nat
    var unpersisted: nat
    var status: Status
    var streamStarted: bool
    var basePts: U64
    var maxFramePts: U64
    var keyFramePts: U64
    var syntheticDts: U64
    var firstPts: U64

    ghost function Contents(): Data
      reads this
    {
      Data(fileSource, absoluteTimes, start, lastFragmentTs, current, unpersisted, status, streamStarted,
           basePts, maxFramePts, keyFramePts, syntheticDts, firstPts)
    }

    constructor (files: nat, start: U64)
      ensures Contents() == FreshData(files, start)
    {
      this.fileSource, this.absoluteTimes, this.start := true, true, start;
      lastFragmentTs := seq(files, _ => 0);
      current, unpersisted, status, streamStarted := 0, 0, STATUS_SUCCESS, false;
      basePts, maxFramePts, keyFramePts, syntheticDts, firstPts := 0, 0, 0, 0, CLOCK_TIME_NONE;
    }

    /** The timestamp bookkeeping of a frame that is not dropped. */
    method StampTimes(b: Buffer) returns (pts: U64, dts: U64)
      modifies this
      ensures (Contents(), pts) == StampPts(StampDts(old(Contents()), b).0, b)
      ensures dts == StampDts(old(Contents()), b).1
    {
      pts, dts := b.pts, b.dts;
      if fileSource || dts == CLOCK_TIME_NONE {
        syntheticDts := Wrap64(syntheticDts + DTS_STEP);
        dts := syntheticDts;
      } else {
        syntheticDts := dts;
      }
      if fileSource {
        maxFramePts := Max(maxFramePts, pts);
        pts := Wrap64(pts + basePts + start);
        if !b.delta {
          keyFramePts := pts;
        }
      } else if absoluteTimes {
        if firstPts == CLOCK_TIME_NONE {
          firstPts := pts;
        }
        pts := Wrap64(pts + start - firstPts);
      }
    }

    method OnNewSample(b: Buffer) returns (frame: Option<Frame>, flow: Flow, starts: bool)
      modifies this
      ensures SampleResult(Contents(), frame, flow, starts) == FileUpload.OnNewSample(old(Contents()), b)
    {
      if status.failed {
        return None, FlowError, false;
      }
      starts := false;
      if !streamStarted {
        streamStarted, starts := true, true;
      }
      if Droppable(b) {
        return None, FlowOk, starts;
      }
      var pts, dts := StampTimes(b);
      frame := if b.mappable then Some(Frame(!b.delta, ToUnits(dts), ToUnits(pts))) else None;
      flow := FlowOk;
    }

    method OnEndOfStream()
      requires current < |lastFragmentTs|
      modifies this
      ensures Contents() == EosCallback(old(Contents()))
    {
      basePts := Wrap64(basePts + maxFramePts + NS_PER_MS);
      maxFramePts := 0;
      lastFragmentTs := lastFragmentTs[current := keyFramePts];
    }

    method OnFragmentAck(persisted: bool, timestamp: nat) returns (threw: bool)
      modifies this
      ensures threw == AckThrows(old(Contents()), persisted)
      ensures Contents() == FragmentAck(old(Contents()), persisted, timestamp)
    {
      threw := false;
      if fileSource && persisted {
        var index := unpersisted;
        if index >= |lastFragmentTs| {
          return true;
        }
        var last := lastFragmentTs[index] / NS_PER_MS;
        if last != 0 && last == timestamp {
          unpersisted := index + 1;
        }
      }
    }

    method OnStreamError(code: Status)
      modifies this
      ensures Contents() == StreamError(old(Contents()), code)
    {
      if (code.retriable && fileSource) || (!code.retriable && !code.recoverable) {
        status := code;
      }
    }

    /** One callback reaching the session during a pipeline run. */
    method Dispatch(c: Callback, ended: bool, ghost w: World) returns (ended': bool)
      requires w.d == Contents() && Uploading(w) && w.phase.eos == ended
      modifies this
      ensures Contents() == Deliver(w, c).d
      ensures SamePipeline(w, Deliver(w, c)) && Deliver(w, c).phase.eos == ended'
    {
      ended' := ended;
      match c {
        case NewSample(b) => if !ended { var _, _, _ := OnNewSample(b); }
        case EndOfStream => if !ended { OnEndOfStream(); ended' := true; }
        case ErrorReport(code) => OnStreamError(code);
        case Ack(persisted, timestamp) => var _ := OnFragmentAck(persisted, timestamp);
      }
    }

    /** One pipeline run: the callbacks arrive in the given order until the driver takes over. */
    method RunPipeline(callbacks: seq<Callback>, ghost w: World) returns (ghost trace: seq<Event>, ghost w': World)
      requires w.d == Contents() && Uploading(w) && !w.phase.eos
      modifies this
      ensures w' == Run(w, trace) && w'.d == Contents() && SamePipeline(w, w')
      ensures trace == Calls(callbacks)
    {
      trace, w' := [], w;
      var ended := false;
      for i := 0 to |callbacks|
        invariant trace == Calls(callbacks[..i])
        invariant w' == Run(w, trace) && w'.d == Contents() && SamePipeline(w, w') && w'.phase.eos == ended
      {
        assert callbacks[..i + 1] == callbacks[..i] + [callbacks[i]];
        CallsAppend(callbacks[..i], callbacks[i]);
        RunAppends(w, trace, Call(callbacks[i]));
        ended := Dispatch(callbacks[i], ended, w');
        w' := Deliver(w', callbacks[i]);
        trace := trace + [Call(callbacks[i])];
      }
      assert callbacks[..|callbacks|] == callbacks;
    }

    /** Start the pipeline for a file and stay in it until the driver takes over. */
    method UploadFile(i: nat, initOk: bool, callbacks: seq<Callback>, ghost w0: World)
      returns (ghost trace: seq<Event>, ghost w: World)
      requires w0.d == Contents() && i < Files(w0) && w0.d.unpersisted <= Files(w0)
      requires w0.phase == Between(i) || (w0.phase.PassStart? && i == w0.d.unpersisted)
      modifies this
      ensures w == Run(w0, trace) && w.d == Contents() && Files(w) == Files(w0) && w.d.unpersisted <= Files(w)
      ensures w.retries == w0.retries && w.runs == w0.runs + 1
      ensures if initOk then w.phase.Playing? && w.phase.file == i else w.phase.Finished?
    {
      trace, w := [Begin(initOk)], Step(w0, Begin(initOk));
      RunAppends(w0, [], Begin(initOk));
      assert [] + trace == trace;
      current, firstPts := i, CLOCK_TIME_NONE;
      if initOk {
        ghost var calls;
        calls, w := RunPipeline(callbacks, w);
        RunConcat(w0, trace, calls);
        trace := trace + calls;
      }
    }

    /** One pass over the files not yet persisted; `last` is the event that ends it. */
    method UploadPass(env: Environment, runsBefore: nat, ghost w0: World)
      returns (failed: bool, doRetry: bool, runs: nat, ghost trace: seq<Event>, ghost w: World, ghost last: Event)
      requires w0.d == Contents() && w0.phase.PassStart? && w0.runs == runsBefore && w0.d.unpersisted <= Files(w0)
      requires AllStarted(env, runsBefore)
      modifies this
      ensures w == Run(w0, trace) && w.d == Contents() && Files(w) == Files(w0) && w.runs == runs
      ensures w.d.unpersisted <= Files(w) && w.retries == w0.retries
      ensures failed <==> !AllStarted(env, runs)
      ensures if failed then w.phase.Finished? else Step(w, last) == EndPass(w, doRetry)
      ensures !failed ==> if doRetry then FileUploadDriver.PassFails(w, last) else FileUploadDriver.UploadEnds(w, last)
    {
      var n, i, continueUploading := |lastFragmentTs|, unpersisted, true;
      failed, doRetry, runs := false, true, runsBefore;
      trace, w, last := [], w0, Begin(true);
      while i < n && continueUploading
        invariant w == Run(w0, trace) && w.d == Contents() && Files(w) == n && w.runs == runs
        invariant w.d.unpersisted <= n && w.retries == w0.retries
        invariant !failed && AllStarted(env, runs)
        invariant if w.phase.Playing? then !continueUploading || i >= n
                  else continueUploading && doRetry && (w.phase == Between(i) || (w.phase.PassStart? && i == w.d.unpersisted))
        invariant w.phase.Between? ==> i < n
        invariant i >= n || !continueUploading ==>
                    && Step(w, last) == EndPass(w, doRetry)
                    && if doRetry then FileUploadDriver.PassFails(w, last) else FileUploadDriver.UploadEnds(w, last)
        decreases n - i, continueUploading
      {
        ghost var more;
        more, w := UploadFile(i, env.initOk(runs), env.callbacks(runs), w);
        RunConcat(w0, trace, more);
        StartedNext(env, runs);
        trace, runs := trace + more, runs + 1;
        if !env.initOk(runs - 1) {
          failed := true;
          return;
        }
        last := Return(env.stopSyncOk(runs));
        if status.failed {
          continueUploading := false;
          doRetry := status.retriable;
        } else if i == n - 1 {
          doRetry := !env.stopSyncOk(runs);
        } else {
          RunAppends(w0, trace, last);
          trace := trace + [last];
          w := Step(w, last);
        }
        i := i + 1;
      }
    }

    /** The driver: resume at the first unpersisted file, upload in order, retry whole passes.
        Its execution is a run of the protocol, so every result about runs holds of it. */
    method UploadFiles(env: Environment, ghost w0: World) returns (exitCode: int, runs: nat, ghost trace: seq<Event>)
      requires w0 == Init(|lastFragmentTs|, start) && w0.d == Contents()
      modifies this
      ensures Contents() == Run(w0, trace).d && Run(w0, trace).phase.Finished?
      ensures runs == Run(w0, trace).runs <= MAX_PASSES * old(|lastFragmentTs|)
      ensures exitCode == if AllStarted(env, runs) then 0 else 1
      ensures exists p: nat :: FileUploadDriver.StoppedAt(old(|lastFragmentTs|), start, trace, p)
    {
      ghost var n, w := |lastFragmentTs|, w0;
      var retries, doRetry := MAX_PASSES, true;
      trace, runs, exitCode := [], 0, 0;
      while doRetry
        invariant w == Run(w0, trace) && w.d == Contents() && Files(w) == n && w.runs == runs
        invariant w.d.unpersisted <= n && exitCode == 0 && AllStarted(env, runs)
        invariant if doRetry then w.phase.PassStart? && w.retries == retries >= 1 else w.phase.Finished?
        decreases doRetry, retries
      {
        var failed;
        ghost var more, last;
        failed, doRetry, runs, more, w, last := UploadPass(env, runs, w);
        RunConcat(w0, trace, more);
        trace := trace + more;
        if failed {
          exitCode := 1;
          break;
        }
        RunAppends(w0, trace, last);
        trace := trace + [last];
        w := Step(w, last);
        if doRetry {
          retries := retries - 1;
          if retries == 0 {
            doRetry := false;
          } else {
            status, streamStarted := STATUS_SUCCESS, false;
          }
        }
      }
      FileUploadDriver.DriverIsBounded(n, start, trace);
      FileUploadDriver.FinishedForAReason(n, start, trace);
    }
  }

  lemma {:induction false} RunConcat(w: World, es: seq<Event>, more: seq<Event>)
    ensures Run(w, es + more) == Run(Run(w, es), more)
  {
    if more == [] {
      assert es + more == es;
    } else {
      RunConcat(w, es, more[..|more| - 1]);
      assert (es + more)[..|es + more| - 1] == es + more[..|more| - 1];
    }
  }

  /** Outcomes the driver cannot choose, for its k-th pipeline run. */
  datatype Environment = Environment(initOk: nat -> bool, callbacks: nat -> seq<Callback>, stopSyncOk: nat -> bool)

  /** None of the first pipelines failed to start. */
  predicate AllStarted(env: Environment, runs: nat) {
    forall k :: 0 <= k < runs ==> env.initOk(k)
  }

  lemma StartedNext(env: Environment, runs: nat)
    ensures AllStarted(env, runs + 1) <==> AllStarted(env, runs) && env.initOk(runs)
  {}

  ghost predicate Uploading(w: World) {
    w.phase.Playing? && w.d.current == w.phase.file < Files(w) && w.d.unpersisted <= Files(w)
  }

  ghost predicate SamePipeline(w: World, w': World) {
    && Uploading(w') && w.phase.Playing? && w'.phase.file == w.phase.file
    && Files(w') == Files(w) && w'.retries == w.retries && w'.runs == w.runs
  }

  ghost function Calls(callbacks: seq<Callback>): seq<Event> {
    seq(|callbacks|, i requires 0 <= i < |callbacks| => Call(callbacks[i]))
  }

  lemma CallsAppend(callbacks: seq<Callback>, c: Callback)
    ensures Calls(callbacks + [c]) == Calls(callbacks) + [Call(c)]
  {}
}
