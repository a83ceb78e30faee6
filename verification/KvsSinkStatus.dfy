/** The error protocol of the sink element: a buffer thread and an error callback sharing one status. */
module KvsSinkStatus {
  import opened Words

  /** Where the buffer callback is. Between Loaded and the end it works with the status it loaded. */
  datatype Thread = Idle | Loaded(status: Status) | Resetting | Putting

  datatype World = World(
    offline: bool, status: Status, thread: Thread,
    reports: nat, resets: nat, puts: nat, errors: nat, loads: nat)

  /** Report: the error callback. Load: a buffer arrives. Advance: the buffer callback's next atomic part. */
  datatype Event = Report(code: Status) | Load | Advance

  function Init(offline: bool): World {
    World(offline, STATUS_SUCCESS, Idle, 0, 0, 0, 0, 0)
  }

  predicate Fatal(offline: bool, s: Status) {
    s.failed && (offline || !s.retriable)
  }

  function AfterLoad(w: World, loaded: Status): World {
    if !loaded.failed then w.(thread := Idle, puts := w.puts + 1)
    else if Fatal(w.offline, loaded) then w.(thread := Idle, errors := w.errors + 1)
    else w.(thread := Resetting, resets := w.resets + 1)
  }

  function Step(w: World, e: Event): World {
    match e
    case Report(code) => if code.recoverable then w else w.(status := code, reports := w.reports + 1)
    case Load => if w.thread.Idle? then w.(thread := Loaded(w.status), loads := w.loads + 1) else w
    case Advance =>
      match w.thread
      case Idle => w
      case Loaded(s) => AfterLoad(w, s)
      case Resetting => w.(status := STATUS_SUCCESS, thread := Putting)
      case Putting => w.(thread := Idle, puts := w.puts + 1)
  }

  function Run(w: World, es: seq<Event>): World
    decreases es
  {
    if es == [] then w else Run(Step(w, es[0]), es[1..])
  }

  /** The library reports failures only. */
  predicate FailuresOnly(es: seq<Event>) {
    forall k :: 0 <= k < |es| && es[k].Report? ==> es[k].code.failed
  }

  // ----- offline: fail-stop ----------------------------------------------------------------------

  /** A buffer that loaded success before the error was stored. */
  predicate InFlight(w: World) {
    w.thread.Putting? || (w.thread.Loaded? && !w.thread.status.failed)
  }

  predicate HoldsFailure(w: World) {
    w.thread.Loaded? && w.thread.status.failed
  }

  /** Once a failure is stored in offline mode, no step restores success, at most the frame in flight is
      still put, and every buffer that loads the status afterwards returns an error. */
  lemma {:induction false} OfflineFailStop(w: World, es: seq<Event>)
    requires w.offline && w.status.failed && !w.thread.Resetting?
    requires FailuresOnly(es)
    ensures var w' := Run(w, es);
      && w'.status.failed && w'.offline && !w'.thread.Resetting? && w'.resets == w.resets
      && w'.puts + (if InFlight(w') then 1 else 0) == w.puts + (if InFlight(w) then 1 else 0)
      && w'.errors - w.errors + (if HoldsFailure(w') then 1 else 0)
         == w'.loads - w.loads + (if HoldsFailure(w) then 1 else 0)
    decreases es
  {
    if es != [] {
      assert FailuresOnly(es[1..]);
      OfflineFailStop(Step(w, es[0]), es[1..]);
    }
  }

  /** In offline mode the reset path is never entered, from the start of any run. */
  lemma {:induction false} OfflineNeverResets(w: World, es: seq<Event>)
    requires w.offline && !w.thread.Resetting?
    ensures Run(w, es).offline && !Run(w, es).thread.Resetting? && Run(w, es).resets == w.resets
    decreases es
  {
    if es != [] {
      OfflineNeverResets(Step(w, es[0]), es[1..]);
    }
  }

  /** The whole-run form: split any run where a failing report is stored. */
  lemma OfflineStopsAfterReport(before: seq<Event>, code: Status, after: seq<Event>)
    requires FailuresOnly(after) && code.failed && !code.recoverable
    ensures var w := Run(Init(true), before + [Report(code)]);
      var w' := Run(Init(true), before + [Report(code)] + after);
      && w'.status.failed && w'.resets == 0
      && w'.puts <= w.puts + 1
      && w'.errors - w.errors <= w'.loads - w.loads + 1
      && (w'.thread.Idle? ==> w'.errors - w.errors >= w'.loads - w.loads)
  {
    RunConcat(Init(true), before, [Report(code)]);
    RunConcat(Init(true), before + [Report(code)], after);
    OfflineNeverResets(Init(true), before + [Report(code)]);
    var w0 := Run(Init(true), before);
    assert Run(w0, [Report(code)]) == Step(w0, Report(code)) by {
      assert [Report(code)][1..] == [];
    }
    OfflineFailStop(Run(Init(true), before + [Report(code)]), after);
  }

  lemma {:induction false} RunConcat(w: World, es: seq<Event>, more: seq<Event>)
    ensures Run(w, es + more) == Run(Run(w, es), more)
    decreases es
  {
    if es == [] {
      assert es + more == more;
    } else {
      assert (es + more)[1..] == es[1..] + more;
      RunConcat(Step(w, es[0]), es[1..], more);
    }
  }

  // ----- every buffer is answered ----------------------------------------------------------------

  /** What a buffer does is decided by the status it loaded: success lets it pass, a failure that can be
      retried in realtime resets the stream first, any other failure is an error. */
  lemma LoadedStatusDecides(w: World)
    requires w.thread.Loaded?
    ensures var s := w.thread.status; var w' := Step(w, Advance);
      && w'.status == w.status && w'.reports == w.reports && w'.loads == w.loads
      && w'.puts == w.puts + (if s.failed then 0 else 1)
      && w'.resets == w.resets + (if s.failed && s.retriable && !w.offline then 1 else 0)
      && w'.errors == w.errors + (if s.failed && (!s.retriable || w.offline) then 1 else 0)
      && (w'.thread.Resetting? <==> w'.resets > w.resets) && (w'.thread.Idle? <==> w'.resets == w.resets)
  {}

  /** In every interleaving each buffer is passed on or answered by an error, exactly once. */
  lemma {:induction false} EveryBufferIsAnswered(offline: bool, es: seq<Event>)
    ensures var w := Run(Init(offline), es);
      w.loads == w.puts + w.errors + if w.thread.Idle? then 0 else 1
  {
    AnswersAddUp(Init(offline), es);
  }

  function Unanswered(w: World): int {
    w.loads - w.puts - w.errors - if w.thread.Idle? then 0 else 1
  }

  lemma {:induction false} AnswersAddUp(w: World, es: seq<Event>)
    ensures Unanswered(Run(w, es)) == Unanswered(w)
    decreases es
  {
    if es != [] {
      AnswersAddUp(Step(w, es[0]), es[1..]);
    }
  }

  /** Reports of recoverable errors make no difference to any run. */
  lemma RecoverableReportsAreIgnored(offline: bool, before: seq<Event>, code: Status, after: seq<Event>)
    requires code.recoverable
    ensures Run(Init(offline), before + [Report(code)] + after) == Run(Init(offline), before + after)
  {
    RunConcat(Init(offline), before, after);
    RunConcat(Init(offline), before, [Report(code)]);
    RunConcat(Init(offline), before + [Report(code)], after);
    RunReport(Run(Init(offline), before), code);
  }

  lemma RunReport(w: World, code: Status)
    ensures Run(w, [Report(code)]) == Step(w, Report(code))
  {
    assert [Report(code)][1..] == [];
  }

  // ----- realtime: every reset is paid for by a report -------------------------------------------

  /** A failing status that no reset has consumed yet. */
  function Unconsumed(w: World): nat {
    match w.thread
    case Idle => if w.status.failed then 1 else 0
    case Loaded(s) => if s.failed || w.status.failed then 1 else 0
    case Resetting => 0
    case Putting => if w.status.failed then 1 else 0
  }

  /** Between any two points of any run, resets are covered by the reports in between and the one
      failure that may have been pending. */
  lemma {:induction false} ResetsConsumeReports(w: World, es: seq<Event>)
    ensures var w' := Run(w, es);
      w'.resets - w.resets + Unconsumed(w') <= w'.reports - w.reports + Unconsumed(w)
    decreases es
  {
    if es != [] {
      ResetsConsumeReports(Step(w, es[0]), es[1..]);
    }
  }

  /** Hence over a whole run, and between two resets there is always a new non-recoverable report. */
  lemma ResetsNeverExceedReports(offline: bool, es: seq<Event>)
    ensures Run(Init(offline), es).resets <= Run(Init(offline), es).reports
  {
    ResetsConsumeReports(Init(offline), es);
  }

  lemma NewReportBetweenResets(w: World, es: seq<Event>)
    requires w.thread.Resetting?
    requires Run(w, es).resets > w.resets
    ensures Run(w, es).reports - w.reports >= Run(w, es).resets - w.resets >= 1
  {
    ResetsConsumeReports(w, es);
  }

  // ----- realtime: which fatal errors stick ------------------------------------------------------

  predicate FatalOnly(offline: bool, es: seq<Event>) {
    forall k :: 0 <= k < |es| && es[k].Report? && !es[k].code.recoverable ==> Fatal(offline, es[k].code)
  }

  /** From the load of a retriable failure to the store of success. */
  predicate InResetWindow(w: World) {
    w.thread.Resetting? || (HoldsFailure(w) && !Fatal(w.offline, w.thread.status))
  }

  lemma {:induction false} FatalOutsideWindowSticks(w: World, es: seq<Event>)
    requires Fatal(w.offline, w.status) && !InResetWindow(w) && FatalOnly(w.offline, es)
    ensures Fatal(w.offline, Run(w, es).status)
    decreases es
  {
    if es != [] {
      assert FatalOnly(w.offline, es[1..]);
      FatalOutsideWindowSticks(Step(w, es[0]), es[1..]);
    }
  }

  /** And while it sticks, in realtime as offline, no buffer that loads it is passed on or resets the
      stream: at most the one in flight passes, and the others return errors. */
  lemma {:induction false} FatalFailStop(w: World, es: seq<Event>)
    requires w.status.failed && (w.offline || !w.status.retriable) && !InResetWindow(w) && FatalOnly(w.offline, es)
    ensures var w' := Run(w, es);
      && w'.resets == w.resets
      && w'.puts + (if InFlight(w') then 1 else 0) == w.puts + (if InFlight(w) then 1 else 0)
      && w'.errors - w.errors + (if HoldsFailure(w') then 1 else 0)
         == w'.loads - w.loads + (if HoldsFailure(w) then 1 else 0)
    decreases es
  {
    if es != [] {
      assert FatalOnly(w.offline, es[1..]);
      FatalFailStop(Step(w, es[0]), es[1..]);
    }
  }

  /** A stored fatal status survives every continuation without milder reports if and only if it was not
      stored inside the reset window; inside it the pending store of success overwrites it. */
  lemma FatalSticksIffOutsideWindow(w: World)
    requires Fatal(w.offline, w.status)
    ensures !InResetWindow(w) <==> forall es :: FatalOnly(w.offline, es) ==> Fatal(w.offline, Run(w, es).status)
  {
    if InResetWindow(w) {
      var two := [Advance, Advance];
      assert two[1..] == [Advance];
      assert Run(w, two) == Run(Step(w, Advance), [Advance]);
      var one := [Advance];
      assert one[1..] == [];
      assert Run(Step(w, Advance), one) == Step(Step(w, Advance), Advance);
      assert Run(Step(w, Advance), []) == Step(w, Advance);
      if w.thread.Resetting? {
        assert Run(w, one) == Step(w, Advance);
        assert FatalOnly(w.offline, one) && !Fatal(w.offline, Run(w, one).status);
      } else {
        assert FatalOnly(w.offline, two) && !Fatal(w.offline, Run(w, two).status);
      }
    } else {
      forall es | FatalOnly(w.offline, es)
        ensures Fatal(w.offline, Run(w, es).status)
      {
        FatalOutsideWindowSticks(w, es);
      }
    }
  }

  /** The window is reachable in realtime: a fatal report can be lost without any buffer failing. */
  lemma RealtimeCanLoseAFatalError(retriable: Status, fatal: Status)
    requires retriable.failed && retriable.retriable && !retriable.recoverable
    requires Fatal(false, fatal) && !fatal.recoverable
    ensures var es := [Report(retriable), Load, Report(fatal), Advance, Advance, Advance];
      var w := Run(Init(false), es);
      w.status == STATUS_SUCCESS && w.errors == 0 && w.puts == 1 && w.reports == 2 && w.thread.Idle?
  {
    var es := [Report(retriable), Load, Report(fatal), Advance, Advance, Advance];
    var w1 := Step(Init(false), es[0]);
    var w2 := Step(w1, es[1]);
    var w3 := Step(w2, es[2]);
    var w4 := Step(w3, es[3]);
    var w5 := Step(w4, es[4]);
    assert es[1..][1..][1..][1..][1..][1..] == [];
    calc {
      Run(Init(false), es);
      Run(w1, es[1..]);
      Run(w2, es[1..][1..]);
      Run(w3, es[1..][1..][1..]);
      Run(w4, es[1..][1..][1..][1..]);
      Run(w5, es[1..][1..][1..][1..][1..]);
      Step(w5, Advance);
    }
  }

  // ----- the callbacks as written ----------------------------------------------------------------

  datatype Decision = HandleBuffer | FlowError | Reset

  /** The atomic parts of both callbacks; any number of reports may run between two parts of the buffer
      callback. The ghost fields are the history. */
  class CustomData {
    const offline: bool
    var status: Status
    ghost var thread: Thread
    ghost var reports: nat
    ghost var resets: nat
    ghost var puts: nat
    ghost var errors: nat
    ghost var loads: nat

    ghost function Contents(): World
      reads this
    {
      World(offline, status, thread, reports, resets, puts, errors, loads)
    }

    constructor (offline: bool)
      ensures Contents() == Init(offline)
    {
      this.offline, status, thread := offline, STATUS_SUCCESS, Idle;
      reports, resets, puts, errors, loads := 0, 0, 0, 0, 0;
    }

    method OnStreamError(code: Status) returns (signalled: bool)
      modifies this
      ensures Contents() == Step(old(Contents()), Report(code))
      ensures signalled <==> !code.recoverable
    {
      signalled := false;
      if !code.recoverable {
        status := code;
        signalled := true;
        reports := reports + 1;
      }
    }

    method LoadStatus() returns (loaded: Status)
      requires thread.Idle?
      modifies this
      ensures Contents() == Step(old(Contents()), Load) && loaded == status
    {
      loaded := status;
      thread, loads := Loaded(loaded), loads + 1;
    }

    /** Decides with the loaded status, whatever has been stored since. */
    method Decide(loaded: Status) returns (decision: Decision)
      requires thread == Loaded(loaded)
      modifies this
      ensures Contents() == Step(old(Contents()), Advance)
      ensures decision.FlowError? <==> Fatal(offline, loaded)
      ensures decision.HandleBuffer? <==> !loaded.failed
    {
      if loaded.failed {
        if offline || !loaded.retriable {
          thread, errors := Idle, errors + 1;
          return FlowError;
        }
        thread, resets := Resetting, resets + 1;
        return Reset;
      }
      thread, puts := Idle, puts + 1;
      decision := HandleBuffer;
    }

    /** The store after the stream was reset: unconditional. */
    method ClearStatus()
      requires thread.Resetting?
      modifies this
      ensures Contents() == Step(old(Contents()), Advance) && status == STATUS_SUCCESS
    {
      status := STATUS_SUCCESS;
      thread := Putting;
    }
  }
}
