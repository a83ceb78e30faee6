/** The upload loop of the sink-element sample: resume at the first file not yet done, retry, give up. */
module ResumeLoop {
  import opened Words

  const MAX_FAILURES: nat := 3

  /** What one pipeline run left behind, as the loop tells the cases apart. */
  datatype Outcome = InitFailed | Uploaded | FlowFailure | Interrupted | OtherFailure

  datatype Attempt = Attempt(file: nat, outcome: Outcome)

  datatype Exit = AllUploaded | InitError | Fatal | RetriesExhausted(reportedFile: nat)

  function Successes(log: seq<Attempt>): seq<nat> {
    if log == [] then []
    else
      var front := Successes(log[..|log| - 1]);
      if log[|log| - 1].outcome.Uploaded? then front + [log[|log| - 1].file] else front
  }

  function Failures(log: seq<Attempt>): nat {
    if log == [] then 0
    else Failures(log[..|log| - 1]) + if log[|log| - 1].outcome.Uploaded? then 0 else 1
  }

  /** Each attempt is on the file after those uploaded before it. */
  ghost predicate InOrder(log: seq<Attempt>) {
    log == [] || (InOrder(log[..|log| - 1]) && log[|log| - 1].file == |Successes(log[..|log| - 1])|)
  }

  /** In-order attempts upload files 0, 1, 2, ... once each. */
  lemma {:induction false} InOrderUploadsOnceEach(log: seq<Attempt>)
    requires InOrder(log)
    ensures Successes(log) == seq(|Successes(log)|, i => i)
  {
    if log != [] {
      InOrderUploadsOnceEach(log[..|log| - 1]);
    }
  }

  /** Only uploads and failures that may be retried. */
  ghost predicate MayGoOn(log: seq<Attempt>) {
    forall j :: 0 <= j < |log| ==> log[j].outcome.Uploaded? || log[j].outcome.OtherFailure?
  }

  ghost predicate Follows(log: seq<Attempt>, outcomes: nat -> Outcome) {
    forall j :: 0 <= j < |log| ==> log[j].outcome == outcomes(j)
  }

  /** The log accounts for the resume index: one success per file below it, failures besides. */
  ghost predicate Accounted(log: seq<Attempt>, outcomes: nat -> Outcome, unpersisted: nat) {
    InOrder(log) && Follows(log, outcomes) && |Successes(log)| == unpersisted && |log| == unpersisted + Failures(log)
  }

  lemma LogGrows(log: seq<Attempt>, a: Attempt)
    ensures Successes(log + [a]) == Successes(log) + if a.outcome.Uploaded? then [a.file] else []
    ensures Failures(log + [a]) == Failures(log) + if a.outcome.Uploaded? then 0 else 1
    ensures InOrder(log + [a]) <==> InOrder(log) && a.file == |Successes(log)|
  {}

  lemma FollowsGrows(log: seq<Attempt>, a: Attempt, outcomes: nat -> Outcome)
    requires Follows(log, outcomes) && a.outcome == outcomes(|log|)
    ensures Follows(log + [a], outcomes)
  {}

  lemma AccountedGrows(log: seq<Attempt>, outcomes: nat -> Outcome, unpersisted: nat)
    requires Accounted(log, outcomes, unpersisted)
    ensures var a := Attempt(unpersisted, outcomes(|log|));
      && Accounted(log + [a], outcomes, unpersisted + if a.outcome.Uploaded? then 1 else 0)
      && Failures(log + [a]) == Failures(log) + if a.outcome.Uploaded? then 0 else 1
  {
    LogGrows(log, Attempt(unpersisted, outcomes(|log|)));
    FollowsGrows(log, Attempt(unpersisted, outcomes(|log|)), outcomes);
  }

  /** One pass: `last` is the outcome that ended it. */
  method UploadPass(files: nat, outcomes: nat -> Outcome, log0: seq<Attempt>, unpersisted0: nat)
    returns (log: seq<Attempt>, unpersisted: nat, last: Outcome)
    requires unpersisted0 < files && Accounted(log0, outcomes, unpersisted0) && MayGoOn(log0)
    ensures Accounted(log, outcomes, unpersisted) && log != [] && last == log[|log| - 1].outcome
    ensures MayGoOn(log[..|log| - 1])
    ensures if last.Uploaded? then unpersisted == files && Failures(log) == Failures(log0)
            else unpersisted < files && Failures(log) == Failures(log0) + 1
  {
    var i, continueUploading := unpersisted0, true;
    log, unpersisted, last := log0, unpersisted0, Uploaded;
    while i < files && continueUploading
      invariant Accounted(log, outcomes, unpersisted) && unpersisted <= files
      invariant if continueUploading then MayGoOn(log) else log != [] && MayGoOn(log[..|log| - 1])
      invariant i > unpersisted0 ==> log != [] && last == log[|log| - 1].outcome
      invariant unpersisted0 <= unpersisted && unpersisted0 <= i <= files
      invariant if continueUploading then i == unpersisted && last.Uploaded? && Failures(log) == Failures(log0)
                else i == unpersisted + 1 && !last.Uploaded? && Failures(log) == Failures(log0) + 1
      decreases files - i, continueUploading
    {
      last := outcomes(|log|);
      AccountedGrows(log, outcomes, unpersisted);
      ghost var before := log;
      log := log + [Attempt(i, last)];
      assert log[..|log| - 1] == before;
      if last.InitFailed? {
        return;
      }
      if last.Uploaded? {
        unpersisted := unpersisted + 1;
      } else {
        continueUploading := false;
      }
      i := i + 1;
    }
  }

  /** For any outcomes, given by position of the attempt: the loop ends; files are uploaded exactly once
      each, in order, up to the resume index; at most three attempts fail; and the index is in range
      whenever the branch for exhausted retries reads it. */
  method UploadFiles(files: nat, outcomes: nat -> Outcome) returns (log: seq<Attempt>, unpersisted: nat, exit: Exit)
    requires files > 0
    ensures InOrder(log) && Follows(log, outcomes) && |log| == unpersisted + Failures(log)
    ensures Successes(log) == seq(unpersisted, i => i) && unpersisted <= files
    ensures Failures(log) <= MAX_FAILURES
    ensures log != [] && MayGoOn(log[..|log| - 1])
    ensures exit.AllUploaded? <==> unpersisted == files
    ensures exit.RetriesExhausted? <==> log != [] && log[|log| - 1].outcome.OtherFailure?
    ensures exit.RetriesExhausted? ==> Failures(log) == MAX_FAILURES && exit.reportedFile == unpersisted < files
    ensures exit.Fatal? <==> log != [] && (log[|log| - 1].outcome.FlowFailure? || log[|log| - 1].outcome.Interrupted?)
    ensures exit.InitError? <==> log != [] && log[|log| - 1].outcome.InitFailed?
  {
    var retries, doRetry := MAX_FAILURES, true;
    log, unpersisted, exit := [], 0, AllUploaded;
    while doRetry
      invariant Accounted(log, outcomes, unpersisted) && unpersisted <= files && Failures(log) <= MAX_FAILURES
      invariant if doRetry then MayGoOn(log) else log != [] && MayGoOn(log[..|log| - 1])
      invariant if doRetry then 1 <= retries && Failures(log) + retries == MAX_FAILURES && unpersisted < files
                else Settled(exit, log, unpersisted, files)
      decreases doRetry, retries
    {
      var last;
      log, unpersisted, last := UploadPass(files, outcomes, log, unpersisted);
      match last {
        case Uploaded => exit, doRetry := AllUploaded, false;
        case InitFailed => exit, doRetry := InitError, false;
        case FlowFailure => exit, doRetry := Fatal, false;
        case Interrupted => exit, doRetry := Fatal, false;
        case OtherFailure =>
          retries := retries - 1;
          if retries == 0 {
            exit, doRetry := RetriesExhausted(unpersisted), false;
          }
      }
    }
    InOrderUploadsOnceEach(log);
  }

  ghost predicate Settled(exit: Exit, log: seq<Attempt>, unpersisted: nat, files: nat) {
    && log != []
    && match log[|log| - 1].outcome
       case Uploaded => exit.AllUploaded? && unpersisted == files
       case InitFailed => exit.InitError? && unpersisted < files
       case FlowFailure => exit.Fatal? && unpersisted < files
       case Interrupted => exit.Fatal? && unpersisted < files
       case OtherFailure => exit == RetriesExhausted(unpersisted) && unpersisted < files && Failures(log) == MAX_FAILURES
  }
}
