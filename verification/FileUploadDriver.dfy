/** The retry driver terminates: bounds over every run, whatever the callbacks do in between. */
module FileUploadDriver {
  import opened Words
  import opened FileUpload
  import opened FileUploadProtocol

  /** Driver steps left in the current pass. */
  function Remaining(w: World): nat
    requires PositionOk(w)
  {
    match w.phase
    case PassStart => 2 * Files(w) + 1
    case Between(next) => 2 * (Files(w) - next) + 1
    case Playing(file, _, _) => 2 * (Files(w) - file)
    case Finished => 0
  }

  /** The lexicographic measure (passes left, steps left in the pass) as one number. */
  function Rank(w: World): nat
    requires PositionOk(w)
  {
    if w.phase.Finished? then 0 else w.retries * (2 * Files(w) + 2) + Remaining(w)
  }

  predicate PositionOk(w: World) {
    && w.d.unpersisted <= Files(w)
    && w.retries <= MAX_PASSES
    && (if w.phase.Finished? then w.session < MAX_PASSES else 1 <= w.retries && w.session + w.retries == MAX_PASSES)
    && (w.phase.Between? ==> w.phase.next < Files(w))
    && (w.phase.Playing? ==> w.phase.file < Files(w) && w.d.current == w.phase.file)
  }

  predicate IsDriverStep(w: World, e: Event) {
    match e
    case Begin(_) => w.phase.PassStart? || w.phase.Between?
    case Return(_) => w.phase.Playing?
    case Call(_) => false
  }

  /** Pipelines started so far: all files of the finished passes, and those up to here in this one. */
  function RunBudget(w: World): nat
    requires PositionOk(w)
  {
    match w.phase
    case PassStart => (MAX_PASSES - w.retries) * Files(w)
    case Between(next) => (MAX_PASSES - w.retries) * Files(w) + next
    case Playing(file, _, _) => (MAX_PASSES - w.retries) * Files(w) + file + 1
    case Finished => MAX_PASSES * Files(w)
  }

  ghost predicate DriverInv(w: World) {
    PositionOk(w) && w.runs <= RunBudget(w)
  }

  lemma EndPassDecreases(w: World, retry: bool)
    requires DriverInv(w) && !w.phase.Finished?
    ensures DriverInv(EndPass(w, retry)) && Rank(EndPass(w, retry)) < Rank(w)
    ensures Files(EndPass(w, retry)) == Files(w)
  {
    var n := 2 * Files(w) + 2;
    assert (w.retries - 1) * n == w.retries * n - n;
    assert (MAX_PASSES - w.retries + 1) * Files(w) == (MAX_PASSES - w.retries) * Files(w) + Files(w);
    assert (MAX_PASSES - w.retries) * Files(w) + w.retries * Files(w) == MAX_PASSES * Files(w);
  }

  lemma BeginFileDecreases(w: World, file: nat, initOk: bool)
    requires DriverInv(w) && ((w.phase == PassStart && file <= Files(w)) || w.phase == Between(file))
    ensures DriverInv(BeginFile(w, file, initOk)) && Rank(BeginFile(w, file, initOk)) < Rank(w)
    ensures Files(BeginFile(w, file, initOk)) == Files(w)
  {
    EndPassDecreases(w, true);
    assert (MAX_PASSES - w.retries) * Files(w) + w.retries * Files(w) == MAX_PASSES * Files(w);
  }

  lemma ReturnDecreases(w: World, stopSyncOk: bool)
    requires DriverInv(w) && w.phase.Playing?
    ensures var w' := ReturnFromPipeline(w, stopSyncOk);
      DriverInv(w') && Rank(w') < Rank(w) && Files(w') == Files(w)
  {
    EndPassDecreases(w, w.d.status.retriable);
    EndPassDecreases(w, !stopSyncOk);
  }

  lemma CallbackKeepsPosition(w: World, c: Callback)
    requires DriverInv(w)
    ensures var w' := Deliver(w, c); DriverInv(w') && Rank(w') == Rank(w) && Files(w') == Files(w)
  {
    if c.NewSample? {
      SampleKeepsDriver(w.d, c.buffer);
    }
  }

  lemma SampleKeepsDriver(d: Data, b: Buffer)
    ensures var d' := OnNewSample(d, b).data;
      d'.unpersisted == d.unpersisted && d'.lastFragmentTs == d.lastFragmentTs && d'.current == d.current
  {}

  /** Each step of the driver uses up rank; callbacks, in any number and order, never give it back. */
  lemma StepUsesRank(w: World, e: Event)
    requires DriverInv(w)
    ensures var w' := Step(w, e);
      && DriverInv(w') && Files(w') == Files(w)
      && Rank(w') + (if IsDriverStep(w, e) then 1 else 0) <= Rank(w)
  {
    match e
    case Call(c) => CallbackKeepsPosition(w, c);
    case Return(stopSyncOk) => if w.phase.Playing? { ReturnDecreases(w, stopSyncOk); }
    case Begin(initOk) =>
      match w.phase {
        case PassStart => BeginFileDecreases(w, w.d.unpersisted, initOk);
        case Between(next) => BeginFileDecreases(w, next, initOk);
        case Playing(_, _, _) =>
        case Finished =>
      }
  }

  function DriverSteps(w: World, es: seq<Event>): nat {
    if es == [] then 0
    else DriverSteps(w, es[..|es| - 1]) + if IsDriverStep(Run(w, es[..|es| - 1]), es[|es| - 1]) then 1 else 0
  }

  /** Under any interleaving with the callbacks the driver makes boundedly many steps, starts at most
      three pipelines per file, and makes at most three passes. */
  lemma {:induction false} DriverIsBounded(files: nat, start: U64, es: seq<Event>)
    ensures var w := Run(Init(files, start), es);
      && DriverInv(w) && Files(w) == files
      && DriverSteps(Init(files, start), es) + Rank(w) <= MAX_PASSES * (2 * files + 2) + 2 * files + 1
      && w.runs <= MAX_PASSES * files
      && w.session + 1 <= MAX_PASSES
  {
    if es != [] {
      DriverIsBounded(files, start, es[..|es| - 1]);
      StepUsesRank(Run(Init(files, start), es[..|es| - 1]), es[|es| - 1]);
    }
    RunsWithinBudget(Run(Init(files, start), es));
  }

  lemma RunsWithinBudget(w: World)
    requires DriverInv(w)
    ensures w.runs <= MAX_PASSES * Files(w)
  {}

  // ----- what the driver decides -----------------------------------------------------------------

  /** The pipeline of the next file cannot be started. */
  predicate StartFails(w: World, e: Event) {
    e == Begin(false) && if w.phase.PassStart? then w.d.unpersisted < Files(w) else w.phase.Between?
  }

  /** A failure that no retry can help, or the last file sent out and confirmed. */
  predicate UploadEnds(w: World, e: Event) {
    && e.Return? && w.phase.Playing?
    && if w.d.status.failed then !w.d.status.retriable else w.phase.file + 1 == Files(w) && e.stopSyncOk
  }

  /** A failure that a retry can help, the last file not confirmed, or a pass with nothing to upload. */
  predicate PassFails(w: World, e: Event) {
    match e
    case Return(stopSyncOk) =>
      w.phase.Playing? && if w.d.status.failed then w.d.status.retriable else w.phase.file + 1 == Files(w) && !stopSyncOk
    case Begin(_) => w.phase.PassStart? && w.d.unpersisted >= Files(w)
    case Call(_) => false
  }

  predicate LastPass(w: World) {
    w.session + 1 == MAX_PASSES
  }

  predicate Stops(w: World, e: Event) {
    StartFails(w, e) || UploadEnds(w, e) || (PassFails(w, e) && LastPass(w))
  }

  /** What a new pass keeps and what it clears. */
  ghost predicate NextPass(w: World, w': World) {
    && w'.phase.PassStart? && w'.session == w.session + 1 && w'.runs == w.runs
    && w'.log == w.log && w'.closed == w.closed && w'.starts == w.starts
    && w'.d == w.d.(status := STATUS_SUCCESS, streamStarted := false)
  }

  /** The decision of every driver step: stop for the three reasons, start a new pass after a pass that
      failed while passes are left, or go on to the next file. */
  lemma DriverDecides(w: World, e: Event)
    requires PositionOk(w) && IsDriverStep(w, e)
    ensures var w' := Step(w, e);
      && (w'.phase.Finished? <==> Stops(w, e))
      && (w'.phase.PassStart? <==> PassFails(w, e) && !LastPass(w))
      && (w'.phase.PassStart? ==> NextPass(w, w'))
      && (w'.phase.Between? ==> w'.phase.next == w.phase.file + 1 && !w.d.status.failed && w'.d == w.d)
      && (w'.phase.Playing? ==> w'.phase == Playing(if w.phase.PassStart? then w.d.unpersisted else w.phase.next, false, false)
                                && w'.d.status == w.d.status && w'.log == w.log)
  {
    match e
    case Return(stopSyncOk) => ReturnDecides(w, stopSyncOk);
    case Begin(initOk) => BeginDecides(w, initOk);
  }

  lemma ReturnDecides(w: World, stopSyncOk: bool)
    requires PositionOk(w) && w.phase.Playing?
    ensures var e := Return(stopSyncOk); var w' := Step(w, e);
      && (w'.phase.Finished? <==> Stops(w, e))
      && (w'.phase.PassStart? <==> PassFails(w, e) && !LastPass(w))
      && (w'.phase.PassStart? ==> NextPass(w, w'))
      && (w'.phase.Between? ==> w'.phase.next == w.phase.file + 1 && !w.d.status.failed && w'.d == w.d)
      && !w'.phase.Playing?
  {}

  lemma BeginDecides(w: World, initOk: bool)
    requires PositionOk(w) && (w.phase.PassStart? || w.phase.Between?)
    ensures var e := Begin(initOk); var w' := Step(w, e);
      && (w'.phase.Finished? <==> Stops(w, e))
      && (w'.phase.PassStart? <==> PassFails(w, e) && !LastPass(w))
      && (w'.phase.PassStart? ==> NextPass(w, w'))
      && !w'.phase.Between?
      && (w'.phase.Playing? ==> w'.phase == Playing(if w.phase.PassStart? then w.d.unpersisted else w.phase.next, false, false)
                                && w'.d.status == w.d.status && w'.log == w.log)
  {}

  lemma {:induction false} FinishedIsFinal(w: World, more: seq<Event>)
    requires w.phase.Finished?
    ensures var w' := Run(w, more); w'.phase.Finished? && w'.runs == w.runs && w'.log == w.log
  {
    if more != [] {
      FinishedIsFinal(w, more[..|more| - 1]);
    }
  }

  /** After a fatal failure, or the confirmed last file, no later pipeline starts and no frame is stamped,
      whatever else happens. */
  lemma NothingAfterTheEnd(files: nat, start: U64, es: seq<Event>, e: Event, more: seq<Event>)
    requires UploadEnds(Run(Init(files, start), es), e)
    ensures var w := Run(Init(files, start), es);
      var w' := Run(Run(Init(files, start), es + [e]), more);
      w'.phase.Finished? && w'.runs == w.runs && w'.log == w.log
  {
    DriverIsBounded(files, start, es);
    RunAppends(Init(files, start), es, e);
    DriverDecides(Run(Init(files, start), es), e);
    FinishedIsFinal(Run(Init(files, start), es + [e]), more);
  }

  /** After a failure that a retry can help, the next pipeline is that of the resume file, in a new session
      with the failure forgotten, as long as passes and files are left. */
  lemma RetryResumes(files: nat, start: U64, es: seq<Event>, e: Event)
    requires var w := Run(Init(files, start), es); PassFails(w, e) && !LastPass(w)
    ensures var w := Run(Init(files, start), es);
      var w' := Run(Init(files, start), es + [e] + [Begin(true)]);
      w.d.unpersisted < files ==>
        w'.phase == Playing(w.d.unpersisted, false, false) && !w'.d.status.failed && w'.session == w.session + 1
  {
    var w := Run(Init(files, start), es);
    DriverIsBounded(files, start, es);
    DriverIsBounded(files, start, es + [e]);
    RunAppends(Init(files, start), es, e);
    DriverDecides(w, e);
    RunAppends(Init(files, start), es + [e], Begin(true));
  }

  /** The event at position p is the one that ended the run, and for one of the three reasons. */
  ghost predicate StoppedAt(files: nat, start: U64, es: seq<Event>, p: nat) {
    p < |es| && !Run(Init(files, start), es[..p]).phase.Finished? && Stops(Run(Init(files, start), es[..p]), es[p])
  }

  lemma {:induction false} FinishedForAReason(files: nat, start: U64, es: seq<Event>)
    requires Run(Init(files, start), es).phase.Finished?
    ensures exists p: nat :: StoppedAt(files, start, es, p)
  {
    var front, last := es[..|es| - 1], es[|es| - 1];
    var w := Run(Init(files, start), front);
    DriverIsBounded(files, start, front);
    if w.phase.Finished? {
      FinishedForAReason(files, start, front);
      var p: nat :| StoppedAt(files, start, front, p);
      assert front[..p] == es[..p];
      assert StoppedAt(files, start, es, p);
    } else {
      if !IsDriverStep(w, last) {
        CallbacksDecideNothing(w, last);
      }
      DriverDecides(w, last);
      assert StoppedAt(files, start, es, |es| - 1);
    }
  }

  lemma CallbacksDecideNothing(w: World, e: Event)
    requires !IsDriverStep(w, e)
    ensures Step(w, e).phase.Finished? <==> w.phase.Finished?
  {}

  /** A persisted ACK makes the handler throw exactly when every file has been passed. */
  lemma AckThrowsIffAllPassed(files: nat, start: U64, es: seq<Event>, persisted: bool)
    ensures var w := Run(Init(files, start), es);
      AckThrows(w.d, persisted) <==> persisted && w.d.unpersisted == files
  {
    DriverIsBounded(files, start, es);
    StartIsConstant(Init(files, start), es);
  }
}
