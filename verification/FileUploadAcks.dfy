/** Which persisted acknowledgements move the resume index of a file upload. */
module FileUploadAcks {
  import opened Words
  import opened Epochs
  import opened FileUpload
  import opened FileUploadProtocol

  // ----- what the environment promises -----------------------------------------------------------

  /** A frame of the current stream session with the given timecode. */
  ghost predicate Carries(w: World, k: nat, timestamp: nat) {
    k < |w.log| && w.log[k].session == w.session && w.log[k].ts / NS_PER_MS == timestamp
  }

  /** One that an ACK can name: a key frame handed to the producer. */
  ghost predicate IsAckable(w: World, k: nat, timestamp: nat) {
    Carries(w, k, timestamp) && w.log[k].key && w.log[k].put
  }

  ghost predicate Ackable(w: World, timestamp: nat) {
    exists k: nat :: IsAckable(w, k, timestamp)
  }

  /** A key frame put since the last reset has the nonzero timecode of the last key frame stamped. */
  ghost predicate CarriesOver(w: World) {
    && w.lastKey.Some? && w.lastKey.value < |w.log|
    && w.log[w.lastKey.value].ts >= NS_PER_MS
    && Ackable(w, w.log[w.lastKey.value].ts / NS_PER_MS)
  }

  /** Some ACK the environment may send now would pass the file if it were the resume file. */
  ghost predicate Passable(w: World, file: nat) {
    && file < Files(w)
    && w.d.lastFragmentTs[file] / NS_PER_MS != 0
    && Ackable(w, w.d.lastFragmentTs[file] / NS_PER_MS)
  }

  ghost predicate AllPassable(w: World, from: nat, upTo: nat) {
    forall f :: from <= f < upTo ==> Passable(w, f)
  }

  /** Ending the upload now would let ACKs of older frames pass the file. */
  ghost predicate Exposed(w: World) {
    w.phase.Playing? && CarriesOver(w) && AllPassable(w, w.d.unpersisted, w.phase.file)
  }

  /** Persisted ACKs name key frames put since the last reset; no upload ends without a key frame of its
      own while older frames expose it. */
  ghost predicate AckOk(w: World, e: Event) {
    match e
    case Call(EndOfStream) => w.phase.Playing? && !w.phase.eos ==> w.phase.keyed || !Exposed(w)
    case Call(Ack(persisted, timestamp)) => persisted ==> Ackable(w, timestamp)
    case _ => true
  }

  ghost predicate AckOkRun(w: World, es: seq<Event>) {
    es == [] || (AckOkRun(w, es[..|es| - 1]) && AckOk(Run(w, es[..|es| - 1]), es[|es| - 1]))
  }

  // ----- the invariant ---------------------------------------------------------------------------

  ghost predicate LastKeyOfEpoch(log: seq<Stamp>, k: nat)
    requires k < |log|
  {
    log[k].key && forall j :: k < j < |log| && log[j].key ==> log[j].epoch != log[k].epoch
  }

  /** Every frame of that epoch and session belongs to the file. */
  ghost predicate OwnsEpoch(log: seq<Stamp>, epoch: nat, session: nat, file: nat) {
    forall j :: 0 <= j < |log| && log[j].epoch == epoch && log[j].session == session ==> log[j].file == file
  }

  ghost predicate LaterSessionsLaterEpochs(log: seq<Stamp>, epoch: nat, session: nat) {
    forall j :: 0 <= j < |log| && log[j].session > session ==> log[j].epoch > epoch
  }

  /** A record points at a key frame of a finished epoch: the last one of an epoch of that very file, if
      the upload had a key frame. */
  ghost predicate RecordOk(log: seq<Stamp>, epochs: nat, sessions: nat, f: nat, ts: U64, c: Completion) {
    && c.index < |log| && log[c.index].key && log[c.index].ts == ts
    && log[c.index].epoch <= c.epoch < epochs && c.session <= sessions
    && (c.keyed ==> KeyedRecordOk(log, f, c))
  }

  ghost predicate KeyedRecordOk(log: seq<Stamp>, f: nat, c: Completion)
    requires c.index < |log|
  {
    && log[c.index].file == f && log[c.index].epoch == c.epoch && log[c.index].session == c.session
    && LastKeyOfEpoch(log, c.index)
    && LaterSessionsLaterEpochs(log, c.epoch, c.session)
    && (c.clean ==> OwnsEpoch(log, c.epoch, c.session, f))
  }

  ghost predicate RecordsOk(w: World) {
    && |w.done| == Files(w)
    && forall f :: 0 <= f < |w.done| ==>
         if w.done[f].Some? then RecordOk(w.log, |w.closed|, w.session, f, w.d.lastFragmentTs[f], w.done[f].value)
         else w.d.lastFragmentTs[f] == 0
  }

  ghost predicate LogOk(w: World) {
    forall k :: 0 <= k < |w.log| ==> w.log[k].epoch <= |w.closed| && w.log[k].session <= w.session
  }

  /** First file whose upload in this session has not ended with an end of stream. */
  function Position(p: Phase, files: nat): nat {
    match p
    case PassStart => 0
    case Between(next) => next
    case Playing(file, eos, _) => if eos then file + 1 else file
    case Finished => files
  }

  ghost predicate DoneBefore(done: seq<Option<Completion>>, from: nat, session: nat) {
    forall f :: from <= f < |done| && done[f].Some? ==> done[f].value.session < session
  }

  ghost predicate MissedOk(w: World) {
    && (w.missed.Some? ==>
          && w.d.unpersisted <= w.missed.value < |w.done|
          && w.missed.value < Position(w.phase, Files(w))
          && (w.done[w.missed.value].Some? ==> w.done[w.missed.value].value.session < w.session))
    && (forall f :: 0 <= f < |w.done| && w.done[f].Some? && w.done[f].value.session == w.session && !w.done[f].value.clean ==>
          w.missed.Some? && w.missed.value < f)
  }

  ghost predicate PhaseOk(w: World) {
    && w.d.unpersisted <= Files(w)
    && DoneBefore(w.done, Position(w.phase, Files(w)), w.session)
    && match w.phase
       case PassStart => w.missed.None? && forall k :: 0 <= k < |w.log| ==> w.log[k].session < w.session
       case Between(next) => w.d.unpersisted <= next < Files(w) && (w.missed.None? ==> Unused(w))
       case Playing(file, eos, keyed) =>
         && w.d.current == file < Files(w)
         && w.d.unpersisted <= Position(w.phase, Files(w))
         && (w.missed.None? ==> if eos then Unused(w) else OwnsEpoch(w.log, |w.closed|, w.session, file))
         && (!eos ==> if keyed then LastKeyIs(w, file) else w.missed.None? ==> Keyless(w))
       case Finished => true
  }

  /** No frame of the current epoch and session has been stamped. */
  ghost predicate Unused(w: World) {
    forall k :: 0 <= k < |w.log| ==> w.log[k].epoch != |w.closed| || w.log[k].session != w.session
  }

  /** `lastKey` is the last key frame stamped, and its time is what the callback will record. */
  ghost predicate KeyTracked(w: World) {
    && (if w.lastKey.Some? then
          w.lastKey.value < |w.log| && w.log[w.lastKey.value].key && w.log[w.lastKey.value].ts == w.d.keyFramePts
        else w.d.keyFramePts == 0)
    && forall j :: 0 <= j < |w.log| && w.log[j].key ==> w.lastKey.Some? && j <= w.lastKey.value
  }

  ghost predicate LastKeyIs(w: World, file: nat) {
    && w.lastKey.Some? && w.lastKey.value < |w.log|
    && (var s := w.log[w.lastKey.value];
        s.file == file && s.epoch == |w.closed| && s.session == w.session)
  }

  /** No key frame of the current epoch and session has been stamped. */
  ghost predicate Keyless(w: World) {
    forall k :: 0 <= k < |w.log| && w.log[k].key ==> w.log[k].epoch != |w.closed| || w.log[k].session != w.session
  }

  ghost predicate AckInv(w: World) {
    && w.d.fileSource
    && LogOk(w)
    && KeyTracked(w)
    && RecordsOk(w)
    && MissedOk(w)
    && PhaseOk(w)
  }

  /** No ACK of this session can name the timecode. */
  ghost predicate Unnamed(w: World, timestamp: nat) {
    timestamp == 0 || !Ackable(w, timestamp)
  }

  /** A file in front of this one cannot be passed. */
  ghost predicate Blocked(w: World, file: nat) {
    exists g :: w.d.unpersisted <= g < file && !Passable(w, g)
  }

  ghost predicate Harmless(w: World, f: nat)
    requires f < |w.done| == Files(w)
  {
    w.done[f].Some? && !w.done[f].value.keyed ==>
      || Unnamed(w, w.d.lastFragmentTs[f] / NS_PER_MS)
      || (w.done[f].value.session == w.session && Blocked(w, f))
  }

  /** The record of an upload without a key frame cannot pass its file, now or later. */
  ghost predicate KeylessInv(w: World) {
    |w.done| == Files(w) && forall f :: 0 <= f < |w.done| ==> Harmless(w, f)
  }

  // ----- matching --------------------------------------------------------------------------------

  /** The acknowledged frame and the record belong to one completed upload of the file, and so does every
      frame of the session with that timecode. */
  ghost predicate OwnCompletedUpload(w: World, file: nat, timestamp: nat) {
    && file < |w.done| && w.done[file].Some?
    && var c := w.done[file].value;
    && c.keyed && c.session == w.session
    && c.epoch < |w.closed|
    && c.index < |w.log| && LastKeyOfEpoch(w.log, c.index)
    && w.log[c.index].file == file && w.log[c.index].epoch == c.epoch && w.log[c.index].session == c.session
    && w.log[c.index].ts / NS_PER_MS == timestamp
    && forall k: nat :: Carries(w, k, timestamp) ==> w.log[k].file == file && w.log[k].epoch == c.epoch
  }

  lemma MatchIsOwnCompletion(w: World, timestamp: nat)
    requires AckInv(w) && KeylessInv(w) && Separated(w.log)
    requires Ackable(w, timestamp) && AckMatches(w.d, true, timestamp)
    ensures OwnCompletedUpload(w, w.d.unpersisted, timestamp)
    ensures w.phase != Finished ==> w.d.unpersisted < Position(w.phase, Files(w))
    ensures w.missed.Some? ==> w.d.unpersisted < w.missed.value
  {
    var f := w.d.unpersisted;
    var c := w.done[f].value;
    assert RecordOk(w.log, |w.closed|, w.session, f, w.d.lastFragmentTs[f], c);
    assert Harmless(w, f);
    var k: nat :| IsAckable(w, k, timestamp);
    assert w.log[k].epoch == c.epoch && c.session == w.session;
  }

  // ----- preservation ----------------------------------------------------------------------------

  lemma AckKeepsInv(w: World, timestamp: nat)
    requires AckInv(w) && KeylessInv(w) && Separated(w.log)
    requires Ackable(w, timestamp)
    ensures AckInv(Deliver(w, Ack(true, timestamp)))
  {
    if AckMatches(w.d, true, timestamp) {
      MatchIsOwnCompletion(w, timestamp);
    }
  }

  lemma ErrorKeepsInv(w: World, code: Status)
    requires AckInv(w)
    ensures AckInv(Deliver(w, ErrorReport(code)))
  {}

  lemma RecordSurvivesReset(log: seq<Stamp>, epochs: nat, sessions: nat, f: nat, ts: U64, c: Completion)
    requires RecordOk(log, epochs, sessions, f, ts, c)
    requires forall k :: 0 <= k < |log| ==> log[k].session <= sessions
    ensures RecordOk(log, epochs, sessions + 1, f, ts, c)
  {}

  lemma ResetKeepsInv(w: World, w': World)
    requires AckInv(w) && w' == w.(phase := PassStart, retries := w'.retries, session := w.session + 1, missed := None,
                                   d := w.d.(status := w'.d.status, streamStarted := w'.d.streamStarted))
    ensures AckInv(w')
  {
    forall f | 0 <= f < |w.done| && w.done[f].Some?
      ensures RecordOk(w.log, |w.closed|, w.session + 1, f, w.d.lastFragmentTs[f], w.done[f].value)
    {
      RecordSurvivesReset(w.log, |w.closed|, w.session, f, w.d.lastFragmentTs[f], w.done[f].value);
    }
  }

  lemma EndPassKeepsInv(w: World, retry: bool)
    requires AckInv(w)
    ensures AckInv(EndPass(w, retry))
  {
    if retry && w.retries > 1 {
      ResetKeepsInv(w, EndPass(w, retry));
    }
  }

  lemma BeginFileKeepsInv(w: World, file: nat, initOk: bool)
    requires AckInv(w)
    requires (w.phase.PassStart? && file == w.d.unpersisted) || w.phase == Between(file)
    ensures AckInv(BeginFile(w, file, initOk))
  {
    if file >= Files(w) {
      EndPassKeepsInv(w, true);
    }
  }

  lemma BeginKeepsInv(w: World, initOk: bool)
    requires AckInv(w)
    ensures AckInv(Step(w, Begin(initOk)))
  {
    match w.phase
    case PassStart => BeginFileKeepsInv(w, w.d.unpersisted, initOk);
    case Between(next) => BeginFileKeepsInv(w, next, initOk);
    case Playing(_, _, _) =>
    case Finished =>
  }

  lemma ContinueKeepsInv(w: World, file: nat, w': World)
    requires AckInv(w) && w.phase.Playing? && w.phase.file == file && file + 1 < Files(w)
    requires w' == w.(phase := Between(file + 1), missed := if !w.phase.eos && w.missed.None? then Some(file) else w.missed)
    ensures AckInv(w')
  {
    assert RecordsOk(w');
    assert MissedOk(w');
  }

  lemma ReturnKeepsInv(w: World, stopSyncOk: bool)
    requires AckInv(w) && w.phase.Playing?
    ensures AckInv(ReturnFromPipeline(w, stopSyncOk))
  {
    if w.d.status.failed {
      EndPassKeepsInv(w, w.d.status.retriable);
    } else if w.phase.file + 1 == Files(w) {
      EndPassKeepsInv(w, !stopSyncOk);
    } else {
      ContinueKeepsInv(w, w.phase.file, ReturnFromPipeline(w, stopSyncOk));
    }
  }

  lemma RecordSurvivesStamp(log: seq<Stamp>, epochs: nat, sessions: nat, f: nat, ts: U64, c: Completion, s: Stamp)
    requires RecordOk(log, epochs, sessions, f, ts, c)
    requires s.epoch == epochs
    ensures RecordOk(log + [s], epochs, sessions, f, ts, c)
  {}

  lemma SampleKeepsRecords(w: World, b: Buffer)
    requires RecordsOk(w) && w.d.fileSource && w.phase.Playing?
    ensures RecordsOk(Sample(w, b))
  {
    var w' := Sample(w, b);
    SampleEffect(w.d, b);
    if GetsStamped(w.d, b) {
      forall f | 0 <= f < |w.done| && w.done[f].Some?
        ensures RecordOk(w'.log, |w.closed|, w.session, f, w.d.lastFragmentTs[f], w.done[f].value)
      {
        RecordSurvivesStamp(w.log, |w.closed|, w.session, f, w.d.lastFragmentTs[f], w.done[f].value, w'.log[|w.log|]);
      }
    }
  }

  lemma SampleKeepsInv(w: World, b: Buffer)
    requires AckInv(w) && w.phase.Playing? && !w.phase.eos
    ensures AckInv(Sample(w, b))
  {
    SampleKeepsRecords(w, b);
    SampleEffect(w.d, b);
  }

  lemma RecordSurvivesEnd(log: seq<Stamp>, epochs: nat, sessions: nat, f: nat, ts: U64, c: Completion)
    requires RecordOk(log, epochs, sessions, f, ts, c)
    ensures RecordOk(log, epochs + 1, sessions, f, ts, c)
  {}

  lemma EosKeepsInv(w: World)
    requires AckInv(w) && w.phase.Playing? && !w.phase.eos
    ensures AckInv(Eos(w))
  {
    var w' := Eos(w);
    forall f | 0 <= f < |w.done| && f != w.d.current && w.done[f].Some?
      ensures RecordOk(w'.log, |w'.closed|, w.session, f, w'.d.lastFragmentTs[f], w'.done[f].value)
    {
      RecordSurvivesEnd(w.log, |w.closed|, w.session, f, w.d.lastFragmentTs[f], w.done[f].value);
    }
  }

  lemma StepKeepsInv(w: World, e: Event)
    requires AckInv(w) && KeylessInv(w) && Separated(w.log) && AckOk(w, e)
    ensures AckInv(Step(w, e))
  {
    match e
    case Begin(initOk) => BeginKeepsInv(w, initOk);
    case Return(stopSyncOk) => if w.phase.Playing? { ReturnKeepsInv(w, stopSyncOk); }
    case Call(NewSample(b)) => if w.phase.Playing? && !w.phase.eos { SampleKeepsInv(w, b); }
    case Call(EndOfStream) => if w.phase.Playing? && !w.phase.eos { EosKeepsInv(w); }
    case Call(ErrorReport(code)) => ErrorKeepsInv(w, code);
    case Call(Ack(persisted, timestamp)) => if persisted { AckKeepsInv(w, timestamp); }
  }

  // ----- preservation: records of uploads without a key frame --------------------------------------

  ghost predicate SameRecords(w: World, w': World) {
    && w'.log == w.log && w'.session == w.session && w'.done == w.done
    && w'.d.lastFragmentTs == w.d.lastFragmentTs && w'.d.unpersisted == w.d.unpersisted
  }

  lemma SameAckable(w: World, w': World, timestamp: nat)
    requires w'.log == w.log && w'.session == w.session
    ensures Ackable(w', timestamp) <==> Ackable(w, timestamp)
  {
    assert forall k: nat :: IsAckable(w', k, timestamp) <==> IsAckable(w, k, timestamp);
  }

  lemma SamePassable(w: World, w': World, f: nat)
    requires w'.log == w.log && w'.session == w.session && Files(w') == Files(w)
    requires f < Files(w) ==> w'.d.lastFragmentTs[f] == w.d.lastFragmentTs[f]
    ensures Passable(w', f) <==> Passable(w, f)
  {
    if f < Files(w) {
      SameAckable(w, w', w.d.lastFragmentTs[f] / NS_PER_MS);
    }
  }

  lemma BlockedStays(w: World, w': World, f: nat)
    requires Blocked(w, f) && w'.d.unpersisted == w.d.unpersisted
    requires forall g :: 0 <= g < f && !Passable(w, g) ==> !Passable(w', g)
    ensures Blocked(w', f)
  {
    var g :| w.d.unpersisted <= g < f && !Passable(w, g);
    assert !Passable(w', g);
  }

  lemma SameRecordsKeepKeyless(w: World, w': World)
    requires KeylessInv(w) && SameRecords(w, w')
    ensures KeylessInv(w')
  {
    forall f | 0 <= f < |w'.done|
      ensures Harmless(w', f)
    {
      assert Harmless(w, f);
      SameAckable(w, w', w.d.lastFragmentTs[f] / NS_PER_MS);
      if Blocked(w, f) {
        forall g | 0 <= g < f
          ensures Passable(w', g) <==> Passable(w, g)
        {
          SamePassable(w, w', g);
        }
        BlockedStays(w, w', f);
      }
    }
  }

  /** After a reset no frame of the session has been put. */
  lemma ResetKeepsKeyless(w: World, w': World)
    requires KeylessInv(w) && LogOk(w)
    requires w'.log == w.log && w'.session == w.session + 1 && w'.done == w.done && w'.d.lastFragmentTs == w.d.lastFragmentTs
    ensures KeylessInv(w')
  {}

  lemma EndPassKeepsKeyless(w: World, retry: bool)
    requires KeylessInv(w) && LogOk(w)
    ensures KeylessInv(EndPass(w, retry))
  {
    if retry && w.retries > 1 {
      ResetKeepsKeyless(w, EndPass(w, retry));
    } else {
      SameRecordsKeepKeyless(w, EndPass(w, retry));
    }
  }

  lemma DriverKeepsKeyless(w: World, e: Event)
    requires KeylessInv(w) && LogOk(w) && !e.Call?
    ensures KeylessInv(Step(w, e))
  {
    EndPassKeepsKeyless(w, true);
    EndPassKeepsKeyless(w, false);
    if SameRecords(w, Step(w, e)) {
      SameRecordsKeepKeyless(w, Step(w, e));
    }
  }

  /** A new frame is in a later epoch than any recorded one, so it carries none of their timecodes. */
  lemma StampCarriesNoRecord(w: World, w': World, s: Stamp, f: nat)
    requires RecordsOk(w) && f < Files(w) && w'.log == w.log + [s] && w'.session == w.session && Separated(w'.log)
    requires s.epoch == |w.closed|
    requires Ackable(w', w.d.lastFragmentTs[f] / NS_PER_MS) && w.d.lastFragmentTs[f] / NS_PER_MS != 0
    ensures Ackable(w, w.d.lastFragmentTs[f] / NS_PER_MS)
  {
    var timestamp := w.d.lastFragmentTs[f] / NS_PER_MS;
    var c := w.done[f].value;
    assert RecordOk(w.log, |w.closed|, w.session, f, w.d.lastFragmentTs[f], c);
    assert Below(w'.log[c.index].ts, w'.log[|w.log|].ts);
    var k: nat :| IsAckable(w', k, timestamp);
    assert IsAckable(w, k, timestamp);
  }

  lemma StampKeepsKeyless(w: World, w': World, s: Stamp)
    requires KeylessInv(w) && RecordsOk(w) && Separated(w'.log) && s.epoch == |w.closed|
    requires w'.log == w.log + [s] && w'.session == w.session && w'.done == w.done
    requires w'.d.lastFragmentTs == w.d.lastFragmentTs && w'.d.unpersisted == w.d.unpersisted
    ensures KeylessInv(w')
  {
    forall f | 0 <= f < |w'.done|
      ensures Harmless(w', f)
    {
      assert Harmless(w, f);
      if !Unnamed(w', w.d.lastFragmentTs[f] / NS_PER_MS) {
        StampCarriesNoRecord(w, w', s, f);
      }
      if Blocked(w, f) {
        forall g | 0 <= g < f && Passable(w', g)
          ensures Passable(w, g)
        {
          StampCarriesNoRecord(w, w', s, g);
        }
        BlockedStays(w, w', f);
      }
    }
  }

  lemma SampleKeepsKeyless(w: World, b: Buffer)
    requires KeylessInv(w) && AckInv(w) && w.phase.Playing? && Separated(Sample(w, b).log)
    ensures KeylessInv(Sample(w, b))
  {
    SampleEffect(w.d, b);
    if GetsStamped(w.d, b) {
      StampKeepsKeyless(w, Sample(w, b), Sample(w, b).log[|w.log|]);
    } else {
      SameRecordsKeepKeyless(w, Sample(w, b));
    }
  }

  lemma KeylessEndRecords(w: World)
    requires AckInv(w) && w.phase.Playing? && !w.phase.eos
    ensures Passable(Eos(w), w.phase.file) <==> CarriesOver(w)
    ensures forall f :: 0 <= f < Files(w) && f != w.phase.file ==> (Passable(Eos(w), f) <==> Passable(w, f))
    ensures forall timestamp: nat :: Ackable(Eos(w), timestamp) <==> Ackable(w, timestamp)
  {
    var w' := Eos(w);
    forall timestamp: nat
      ensures Ackable(w', timestamp) <==> Ackable(w, timestamp)
    {
      SameAckable(w, w', timestamp);
    }
  }

  lemma EosKeepsKeyless(w: World)
    requires KeylessInv(w) && AckInv(w) && w.phase.Playing? && !w.phase.eos
    requires w.phase.keyed || !Exposed(w)
    ensures KeylessInv(Eos(w))
  {
    var w', file := Eos(w), w.phase.file;
    KeylessEndRecords(w);
    forall f | 0 <= f < |w'.done|
      ensures Harmless(w', f)
    {
      if f != file {
        assert Harmless(w, f);
        if Blocked(w, f) && w.done[f].Some? && w.done[f].value.session == w.session {
          BlockedStays(w, w', f);
        }
      } else if !w.phase.keyed && CarriesOver(w) {
        var g :| w.d.unpersisted <= g < file && !Passable(w, g);
        assert !Passable(w', g);
      }
    }
  }

  lemma AckKeepsKeyless(w: World, timestamp: nat)
    requires KeylessInv(w) && w.d.fileSource && Ackable(w, timestamp)
    ensures KeylessInv(Deliver(w, Ack(true, timestamp)))
  {
    var w' := Deliver(w, Ack(true, timestamp));
    forall f | 0 <= f < |w'.done|
      ensures Harmless(w', f)
    {
      assert Harmless(w, f);
      SameAckable(w, w', w.d.lastFragmentTs[f] / NS_PER_MS);
      if Blocked(w, f) {
        var g :| w.d.unpersisted <= g < f && !Passable(w, g);
        SamePassable(w, w', g);
        assert w'.d.unpersisted <= g;
      }
    }
  }

  lemma StepKeepsKeyless(w: World, e: Event)
    requires KeylessInv(w) && AckInv(w) && Separated(Step(w, e).log) && AckOk(w, e)
    ensures KeylessInv(Step(w, e))
  {
    match e
    case Begin(_) => DriverKeepsKeyless(w, e);
    case Return(_) => DriverKeepsKeyless(w, e);
    case Call(NewSample(b)) => if w.phase.Playing? && !w.phase.eos { SampleKeepsKeyless(w, b); }
    case Call(EndOfStream) => if w.phase.Playing? && !w.phase.eos { EosKeepsKeyless(w); }
    case Call(ErrorReport(code)) => SameRecordsKeepKeyless(w, Step(w, e));
    case Call(Ack(persisted, timestamp)) => if persisted { AckKeepsKeyless(w, timestamp); }
  }

  // ----- main results ----------------------------------------------------------------------------

  lemma {:induction false} RunKeepsAckInv(files: nat, start: U64, es: seq<Event>)
    requires TimeOkRun(Init(files, start), es) && AckOkRun(Init(files, start), es)
    ensures var w := Run(Init(files, start), es); AckInv(w) && KeylessInv(w) && Separated(w.log)
  {
    EpochsNeverOverlap(files, start, es);
    if es != [] {
      RunKeepsAckInv(files, start, es[..|es| - 1]);
      var w := Run(Init(files, start), es[..|es| - 1]);
      StepKeepsInv(w, es[|es| - 1]);
      StepKeepsKeyless(w, es[|es| - 1]);
    }
  }

  lemma IndexMovesOnlyOnMatch(w: World, e: Event)
    ensures Step(w, e).d.unpersisted ==
      w.d.unpersisted + if e.Call? && e.callback.Ack? && AckMatches(w.d, e.callback.persisted, e.callback.timestamp) then 1 else 0
  {
    if e.Call? && e.callback.NewSample? {
      SampleKeepsIndex(w.d, e.callback.buffer);
    }
  }

  lemma SampleKeepsIndex(d: Data, b: Buffer)
    ensures OnNewSample(d, b).data.unpersisted == d.unpersisted
  {}

  /** The resume index never goes back, and passes a file only on the persisted ACK of the last key
      frame of a completed upload of that file; every frame of the session with that timecode is of it. */
  lemma {:induction false} IndexPassesOnlyOwnCompletion(files: nat, start: U64, es: seq<Event>, e: Event)
    requires TimeOkRun(Init(files, start), es) && AckOkRun(Init(files, start), es)
    requires AckOk(Run(Init(files, start), es), e)
    ensures var w := Run(Init(files, start), es);
      var w' := Run(Init(files, start), es + [e]);
      || w'.d.unpersisted == w.d.unpersisted
      || (&& w'.d.unpersisted == w.d.unpersisted + 1
          && e.Call? && e.callback.Ack? && e.callback.persisted
          && OwnCompletedUpload(w, w.d.unpersisted, e.callback.timestamp))
  {
    var w := Run(Init(files, start), es);
    RunKeepsAckInv(files, start, es);
    assert (es + [e])[..|es|] == es;
    IndexMovesOnlyOnMatch(w, e);
    if e.Call? && e.callback.Ack? && AckMatches(w.d, e.callback.persisted, e.callback.timestamp) {
      MatchIsOwnCompletion(w, e.callback.timestamp);
    }
  }

  /** The event at position p acknowledged the file. */
  ghost predicate AcknowledgedAt(files: nat, start: U64, es: seq<Event>, p: nat, file: nat) {
    && p < |es| && es[p].Call? && es[p].callback.Ack? && es[p].callback.persisted
    && var w := Run(Init(files, start), es[..p]);
       w.d.unpersisted == file && OwnCompletedUpload(w, file, es[p].callback.timestamp)
  }

  /** Every file below the resume index had its own acknowledgement in the run. */
  lemma {:induction false} EveryPassedFileWasAcknowledged(files: nat, start: U64, es: seq<Event>, file: nat)
    requires TimeOkRun(Init(files, start), es) && AckOkRun(Init(files, start), es)
    requires file < Run(Init(files, start), es).d.unpersisted
    ensures exists p: nat :: AcknowledgedAt(files, start, es, p, file)
  {
    var front := es[..|es| - 1];
    IndexPassesOnlyOwnCompletion(files, start, front, es[|es| - 1]);
    assert front + [es[|es| - 1]] == es;
    if file < Run(Init(files, start), front).d.unpersisted {
      EveryPassedFileWasAcknowledged(files, start, front, file);
      var p: nat :| AcknowledgedAt(files, start, front, p, file);
      assert front[..p] == es[..p];
      assert AcknowledgedAt(files, start, es, p, file);
    } else {
      assert AcknowledgedAt(files, start, es, |es| - 1, file);
    }
  }

  /** The converse: the timecode recorded for the resume file always moves the index. */
  lemma MatchIffRecordedTimecode(w: World, timestamp: nat)
    requires AckInv(w)
    ensures AckMatches(w.d, true, timestamp) <==>
      (&& timestamp != 0
       && w.d.unpersisted < |w.done| && w.done[w.d.unpersisted].Some?
       && w.log[w.done[w.d.unpersisted].value.index].ts / NS_PER_MS == timestamp)
  {}

  // ----- uploads without a key frame: exactly when they can be passed ------------------------------

  ghost predicate AcksOnly(es: seq<Event>) {
    forall k :: 0 <= k < |es| ==> es[k].Call? && es[k].callback.Ack?
  }

  ghost predicate CanBePassed(w: World, file: nat) {
    exists acks :: AcksOnly(acks) && AckOkRun(w, acks) && Run(w, acks).d.unpersisted > file
  }

  function AtIndex(w: World, index: nat): World {
    w.(d := w.d.(unpersisted := index))
  }

  lemma {:induction false} AcksMoveOnlyTheIndex(w: World, acks: seq<Event>)
    requires w.d.fileSource && AcksOnly(acks) && AckOkRun(w, acks)
    ensures var w' := Run(w, acks);
      w.d.unpersisted <= w'.d.unpersisted && w' == AtIndex(w, w'.d.unpersisted) && AllPassable(w, w.d.unpersisted, w'.d.unpersisted)
  {
    if acks != [] {
      var front, ack := acks[..|acks| - 1], acks[|acks| - 1].callback;
      AcksMoveOnlyTheIndex(w, front);
      var v := Run(w, front);
      if AckMatches(v.d, ack.persisted, ack.timestamp) {
        assert Ackable(v, ack.timestamp);
        var k: nat :| IsAckable(v, k, ack.timestamp);
        assert IsAckable(w, k, ack.timestamp);
        assert Passable(w, v.d.unpersisted);
      }
    }
  }

  lemma PassableFileIsPassed(w: World, f: nat) returns (ack: Event)
    requires w.d.fileSource && Passable(w, f)
    ensures ack.Call? && ack.callback.Ack? && AckOk(AtIndex(w, f), ack) && Step(AtIndex(w, f), ack) == AtIndex(w, f + 1)
  {
    var timestamp := w.d.lastFragmentTs[f] / NS_PER_MS;
    ack := Call(Ack(true, timestamp));
    SameAckable(w, AtIndex(w, f), timestamp);
  }

  lemma AckAppends(w: World, acks: seq<Event>, ack: Event)
    requires AcksOnly(acks) && AckOkRun(w, acks) && ack.Call? && ack.callback.Ack? && AckOk(Run(w, acks), ack)
    ensures AcksOnly(acks + [ack]) && AckOkRun(w, acks + [ack]) && Run(w, acks + [ack]) == Step(Run(w, acks), ack)
  {
    assert (acks + [ack])[..|acks|] == acks;
  }

  lemma {:induction false} PassableFilesArePassed(w: World, upTo: nat) returns (acks: seq<Event>)
    requires w.d.fileSource && w.d.unpersisted <= upTo && AllPassable(w, w.d.unpersisted, upTo)
    ensures AcksOnly(acks) && AckOkRun(w, acks) && Run(w, acks) == AtIndex(w, upTo)
    decreases upTo
  {
    acks := [];
    if w.d.unpersisted < upTo {
      acks := PassableFilesArePassed(w, upTo - 1);
      assert Passable(w, upTo - 1);
      var ack := PassableFileIsPassed(w, upTo - 1);
      AckAppends(w, acks, ack);
      acks := acks + [ack];
    }
  }

  lemma CanBePassedIffAllPassable(w: World, file: nat)
    requires w.d.fileSource && w.d.unpersisted <= file
    ensures CanBePassed(w, file) <==> AllPassable(w, w.d.unpersisted, file + 1)
  {
    if CanBePassed(w, file) {
      var acks :| AcksOnly(acks) && AckOkRun(w, acks) && Run(w, acks).d.unpersisted > file;
      AcksMoveOnlyTheIndex(w, acks);
    }
    if AllPassable(w, w.d.unpersisted, file + 1) {
      var acks := PassableFilesArePassed(w, file + 1);
    }
  }

  /** A file that ended by a bus error keeps its record of an earlier session, which nothing can name. */
  lemma MissedIsNotPassable(w: World)
    requires AckInv(w) && KeylessInv(w) && Separated(w.log) && w.missed.Some?
    ensures !Passable(w, w.missed.value)
  {
    assert Harmless(w, w.missed.value);
  }

  /** The condition is exact. In a run that met it so far, an upload that ends without a key frame can be
      passed by ACKs of frames put since the last reset if and only if it was exposed; and then every frame
      such an ACK names was stamped in an epoch before the upload began. */
  lemma {:induction false} KeylessEndCanBePassedIff(files: nat, start: U64, es: seq<Event>)
    requires TimeOkRun(Init(files, start), es) && AckOkRun(Init(files, start), es)
    requires var p := Run(Init(files, start), es).phase; p.Playing? && !p.eos && !p.keyed
    ensures var w := Run(Init(files, start), es);
      var w' := Run(Init(files, start), es + [Call(EndOfStream)]);
      && w.phase.file < Files(w') == Files(w)
      && (CanBePassed(w', w.phase.file) <==> Exposed(w))
      && (CanBePassed(w', w.phase.file) ==>
            forall k: nat :: IsAckable(w', k, w'.d.lastFragmentTs[w.phase.file] / NS_PER_MS) ==> w.log[k].epoch < |w.closed|)
  {
    var w := Run(Init(files, start), es);
    RunKeepsAckInv(files, start, es);
    RunAppends(Init(files, start), es, Call(EndOfStream));
    var w' := Eos(w);
    KeylessEndRecords(w);
    CanBePassedIffAllPassable(w', w.phase.file);
    if CanBePassed(w', w.phase.file) {
      assert AllPassable(w, w.d.unpersisted, w.phase.file);
      if w.missed.Some? {
        MissedIsNotPassable(w);
      }
    }
  }

  /** One key frame at time 0, and the end of the first file. */
  function FirstUpload(b: Buffer): seq<Event> {
    [Begin(true)] + [Call(NewSample(b))] + [Call(EndOfStream)]
  }

  /** The second file is playing, and has no frame at all. */
  function KeylessFront(b: Buffer): seq<Event> {
    FirstUpload(b) + [Return(true)] + [Begin(true)]
  }

  function KeylessUpload(b: Buffer): seq<Event> {
    KeylessFront(b) + [Call(EndOfStream)]
  }

  ghost predicate OneFileStamped(w: World, start: U64, recorded: seq<U64>) {
    && w.d.fileSource && w.d.unpersisted == 0 && w.d.status == STATUS_SUCCESS
    && w.d.start == start && w.d.lastFragmentTs == recorded && w.d.keyFramePts == start
    && |w.log| == 1 && w.log[0].file == 0 && w.lastKey == Some(0) && w.session == 0
    && w.log[0].key && w.log[0].put && w.log[0].ts == start && w.log[0].session == 0
  }

  /** The first key frame at time 0 of a run. */
  predicate Opens(b: Buffer) {
    !Droppable(b) && !b.delta && b.mappable && b.pts == 0
  }

  lemma AckOkAppends(w: World, es: seq<Event>, e: Event)
    ensures AckOkRun(w, es + [e]) <==> AckOkRun(w, es) && AckOk(Run(w, es), e)
  {
    assert (es + [e])[..|es|] == es;
  }

  lemma AfterFirstFrame(start: U64, b: Buffer)
    requires start + 2 * NS_PER_MS < TWO_64 && Opens(b)
    ensures var es := [Begin(true)] + [Call(NewSample(b))];
      var w := Run(Init(2, start), es);
      && TimeOkRun(Init(2, start), es) && AckOkRun(Init(2, start), es)
      && OneFileStamped(w, start, [0, 0])
      && w.d.basePts == 0 && w.d.maxFramePts == 0 && w.phase == Playing(0, false, true) && w.d.current == 0
  {
    var w0 := Init(2, start);
    RunAppends(w0, [], Begin(true));
    AckOkAppends(w0, [], Begin(true));
    assert [] + [Begin(true)] == [Begin(true)];
    RunAppends(w0, [Begin(true)], Call(NewSample(b)));
    AckOkAppends(w0, [Begin(true)], Call(NewSample(b)));
    SampleEffect(Run(w0, [Begin(true)]).d, b);
    WrapIdentity(start);
  }

  lemma AfterFirstUpload(start: U64, b: Buffer)
    requires start + 2 * NS_PER_MS < TWO_64 && Opens(b)
    ensures var w := Run(Init(2, start), FirstUpload(b));
      && TimeOkRun(Init(2, start), FirstUpload(b)) && AckOkRun(Init(2, start), FirstUpload(b))
      && OneFileStamped(w, start, [start, 0])
      && w.d.basePts == NS_PER_MS && w.d.maxFramePts == 0 && w.phase == Playing(0, true, true)
  {
    AfterFirstFrame(start, b);
    RunAppends(Init(2, start), [Begin(true)] + [Call(NewSample(b))], Call(EndOfStream));
    AckOkAppends(Init(2, start), [Begin(true)] + [Call(NewSample(b))], Call(EndOfStream));
  }

  lemma FirstFrameIsAckable(w: World, start: U64, recorded: seq<U64>)
    requires OneFileStamped(w, start, recorded)
    ensures Ackable(w, start / NS_PER_MS)
  {
    assert IsAckable(w, 0, start / NS_PER_MS);
  }

  lemma BeforeKeylessEnd(start: U64, b: Buffer)
    requires NS_PER_MS <= start && start + 2 * NS_PER_MS < TWO_64 && Opens(b)
    ensures var w := Run(Init(2, start), KeylessFront(b));
      && TimeOkRun(Init(2, start), KeylessFront(b)) && AckOkRun(Init(2, start), KeylessFront(b))
      && OneFileStamped(w, start, [start, 0])
      && w.d.basePts == NS_PER_MS && w.d.maxFramePts == 0 && w.phase == Playing(1, false, false) && w.d.current == 1
      && Exposed(w)
  {
    var w0 := Init(2, start);
    AfterFirstUpload(start, b);
    RunAppends(w0, FirstUpload(b), Return(true));
    AckOkAppends(w0, FirstUpload(b), Return(true));
    RunAppends(w0, FirstUpload(b) + [Return(true)], Begin(true));
    AckOkAppends(w0, FirstUpload(b) + [Return(true)], Begin(true));
    FirstFrameIsAckable(Run(w0, KeylessFront(b)), start, [start, 0]);
  }

  lemma AfterKeylessUpload(start: U64, b: Buffer)
    requires NS_PER_MS <= start && start + 2 * NS_PER_MS < TWO_64 && Opens(b)
    ensures TimeOkRun(Init(2, start), KeylessUpload(b))
    ensures OneFileStamped(Run(Init(2, start), KeylessUpload(b)), start, [start, start])
  {
    BeforeKeylessEnd(start, b);
    RunAppends(Init(2, start), KeylessFront(b), Call(EndOfStream));
  }

  /** A real input of the failure: the first file's only key frame is put, the second file has no frame and
      is exposed when it ends; the environment may then acknowledge the first file's frame twice, and the
      second time this passes a file of which nothing was uploaded. */
  lemma KeylessUploadIsPassedByForeignAck(start: U64, b: Buffer)
    requires NS_PER_MS <= start && start + 2 * NS_PER_MS < TWO_64 && Opens(b)
    ensures var w := Run(Init(2, start), KeylessFront(b));
      AckOkRun(Init(2, start), KeylessFront(b)) && w.phase == Playing(1, false, false) && Exposed(w)
    ensures var ack := Call(Ack(true, start / NS_PER_MS));
      var es := KeylessUpload(b) + [ack] + [ack];
      var w := Run(Init(2, start), es);
      && TimeOkRun(Init(2, start), es)
      && AckOk(Run(Init(2, start), KeylessUpload(b)), ack)
      && AckOk(Run(Init(2, start), KeylessUpload(b) + [ack]), ack)
      && w.d.unpersisted == 2
      && forall k :: 0 <= k < |w.log| ==> w.log[k].file == 0
  {
    var w0, ack := Init(2, start), Call(Ack(true, start / NS_PER_MS));
    BeforeKeylessEnd(start, b);
    AfterKeylessUpload(start, b);
    var w := Run(w0, KeylessUpload(b));
    FirstFrameIsAckable(w, start, [start, start]);
    RunAppends(w0, KeylessUpload(b), ack);
    FirstAckPasses(w, start);
    SameAckable(w, AtIndex(w, 1), start / NS_PER_MS);
    RunAppends(w0, KeylessUpload(b) + [ack], ack);
  }

  lemma FirstAckPasses(w: World, start: U64)
    requires OneFileStamped(w, start, [start, start]) && NS_PER_MS <= start
    ensures var ack := Call(Ack(true, start / NS_PER_MS));
      Step(w, ack) == AtIndex(w, 1) && Step(AtIndex(w, 1), ack) == AtIndex(w, 2)
  {}
}
