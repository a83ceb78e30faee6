/** Pads of the sink element, their track ids, and the tracks declared in the stream definition. */
module KvsSinkPads {
  import opened Words
  import opened KvsSinkFrames

  const DEFAULT_TRACK_ID: nat := 1
  const DEFAULT_AUDIO_TRACK_ID: nat := 2

  datatype Pad = Pad(name: nat, kind: TrackKind, trackId: nat)

  /** `trackInfo` is the kind declared for the default track. */
  datatype Element = Element(pads: seq<Pad>, audioStreams: U32, videoStreams: U32, media: MediaType,
                             trackInfo: TrackKind, nextName: nat)

  /** Events in the NULL state. A failed transition to READY has prepared the tracks of some pads, and may
      have got as far as creating the stream. */
  datatype Event = Request(kind: TrackKind) | Release(name: nat) | FailedReady(prepared: nat, created: bool)

  function FreshElement(): Element {
    Element([], 0, 0, VideoOnly, Video, 0)
  }

  function MediaOf(videoStreams: U32, audioStreams: U32): MediaType {
    if videoStreams > 0 && audioStreams > 0 then AudioVideo
    else if videoStreams > 0 then VideoOnly
    else AudioOnly
  }

  /** A second pad of the same kind is refused. The media type is recomputed here and nowhere else. */
  function RequestPad(s: Element, kind: TrackKind): Element {
    if (if kind.Audio? then s.audioStreams else s.videoStreams) == 1 then s
    else
      var audio := Wrap32(s.audioStreams + if kind.Audio? then 1 else 0);
      var video := Wrap32(s.videoStreams + if kind.Video? then 1 else 0);
      Element(s.pads + [Pad(s.nextName, kind, DEFAULT_TRACK_ID)], audio, video, MediaOf(video, audio),
              s.trackInfo, s.nextName + 1)
  }

  function Without(pads: seq<Pad>, name: nat): seq<Pad> {
    if pads == [] then []
    else
      var front := Without(pads[..|pads| - 1], name);
      if pads[|pads| - 1].name == name then front else front + [pads[|pads| - 1]]
  }

  function Count(pads: seq<Pad>, kind: TrackKind): nat {
    if pads == [] then 0
    else Count(pads[..|pads| - 1], kind) + if pads[|pads| - 1].kind == kind then 1 else 0
  }

  function CountNamed(pads: seq<Pad>, name: nat, kind: TrackKind): nat {
    if pads == [] then 0
    else
      var last := pads[|pads| - 1];
      CountNamed(pads[..|pads| - 1], name, kind) + if last.name == name && last.kind == kind then 1 else 0
  }

  function ReleasePad(s: Element, name: nat): Element {
    s.(pads := Without(s.pads, name),
       audioStreams := Wrap32(s.audioStreams - CountNamed(s.pads, name, Audio)),
       videoStreams := Wrap32(s.videoStreams - CountNamed(s.pads, name, Video)))
  }

  function PreparedPad(media: MediaType, p: Pad): Pad {
    if media.AudioVideo? then p.(trackId := if p.kind.Video? then DEFAULT_TRACK_ID else DEFAULT_AUDIO_TRACK_ID) else p
  }

  /** The first pads of the collect list after the track preparation has reached them. */
  function Prepare(pads: seq<Pad>, media: MediaType, upTo: nat): seq<Pad> {
    seq(|pads|, i requires 0 <= i < |pads| => if i < upTo then PreparedPad(media, pads[i]) else pads[i])
  }

  function CreateStream(s: Element): Element {
    s.(trackInfo := if s.media.AudioOnly? then Audio else s.trackInfo)
  }

  /** Tracks of the stream definition built by CreateStream. */
  function Definition(s: Element): map<int, TrackKind> {
    if s.media.AudioVideo? then map[DEFAULT_TRACK_ID := s.trackInfo, DEFAULT_AUDIO_TRACK_ID := Audio]
    else map[DEFAULT_TRACK_ID := s.trackInfo]
  }

  function BecomeReady(s: Element): Element {
    CreateStream(s.(pads := Prepare(s.pads, s.media, |s.pads|)))
  }

  function Step(s: Element, e: Event): Element {
    match e
    case Request(kind) => RequestPad(s, kind)
    case Release(name) => ReleasePad(s, name)
    case FailedReady(prepared, created) =>
      if created then BecomeReady(s) else s.(pads := Prepare(s.pads, s.media, prepared))
  }

  function Run(s: Element, es: seq<Event>): Element {
    if es == [] then s else Step(Run(s, es[..|es| - 1]), es[|es| - 1])
  }

  // ----- the invariant ---------------------------------------------------------------------------

  predicate HasKind(pads: seq<Pad>, kind: TrackKind) {
    exists i :: 0 <= i < |pads| && pads[i].kind == kind
  }

  predicate PadOk(p: Pad, media: MediaType, nextName: nat) {
    && p.name < nextName
    && (p.kind.Video? ==> p.trackId == DEFAULT_TRACK_ID && !media.AudioOnly?)
    && (p.kind.Audio? ==> !media.VideoOnly?)
    && (p.trackId == DEFAULT_TRACK_ID || (p.trackId == DEFAULT_AUDIO_TRACK_ID && media.AudioVideo?))
  }

  /** At most one pad per kind, counters equal to the list, and track id 2 only with audio and video. */
  predicate PadInv(s: Element) {
    && Count(s.pads, Audio) == s.audioStreams <= 1
    && Count(s.pads, Video) == s.videoStreams <= 1
    && AllOk(s.pads, s.media, s.nextName)
  }

  lemma {:induction false} CountZero(pads: seq<Pad>, kind: TrackKind)
    ensures Count(pads, kind) == 0 <==> !HasKind(pads, kind)
  {
    if pads != [] {
      var front := pads[..|pads| - 1];
      CountZero(front, kind);
      if HasKind(pads, kind) && pads[|pads| - 1].kind != kind {
        var i :| 0 <= i < |pads| && pads[i].kind == kind;
        assert front[i].kind == kind;
      }
    }
  }

  lemma {:induction false} WithoutCounts(pads: seq<Pad>, name: nat, kind: TrackKind)
    ensures Count(Without(pads, name), kind) + CountNamed(pads, name, kind) == Count(pads, kind)
  {
    if pads != [] {
      var front, last := pads[..|pads| - 1], pads[|pads| - 1];
      WithoutCounts(front, name, kind);
      if last.name != name {
        assert (Without(front, name) + [last])[..|Without(front, name)|] == Without(front, name);
      }
    }
  }

  lemma {:induction false} PrepareCounts(pads: seq<Pad>, media: MediaType, upTo: nat, kind: TrackKind)
    ensures Count(Prepare(pads, media, upTo), kind) == Count(pads, kind)
  {
    if pads != [] {
      var front := pads[..|pads| - 1];
      PrepareCounts(front, media, upTo, kind);
      assert Prepare(pads, media, upTo)[..|pads| - 1] == Prepare(front, media, upTo);
    }
  }

  lemma RequestKeepsInv(s: Element, kind: TrackKind)
    requires PadInv(s)
    ensures PadInv(RequestPad(s, kind))
  {
    var s' := RequestPad(s, kind);
    if s' != s {
      assert s'.pads[..|s.pads|] == s.pads;
      CountZero(s.pads, kind);
      assert forall i :: 0 <= i < |s.pads| ==> s.pads[i].kind != kind;
      CountZero(s.pads, Audio);
      CountZero(s.pads, Video);
    }
  }

  predicate AllOk(pads: seq<Pad>, media: MediaType, nextName: nat) {
    forall i :: 0 <= i < |pads| ==> PadOk(pads[i], media, nextName)
  }

  lemma {:induction false} WithoutKeepsOk(pads: seq<Pad>, name: nat, media: MediaType, nextName: nat)
    requires AllOk(pads, media, nextName)
    ensures AllOk(Without(pads, name), media, nextName)
  {
    if pads != [] {
      WithoutKeepsOk(pads[..|pads| - 1], name, media, nextName);
    }
  }

  lemma ReleaseCounts(pads: seq<Pad>, name: nat, kind: TrackKind, streams: U32)
    requires Count(pads, kind) == streams
    ensures Wrap32(streams - CountNamed(pads, name, kind)) == Count(Without(pads, name), kind) <= streams
  {
    WithoutCounts(pads, name, kind);
    var rest := Count(Without(pads, name), kind);
    assert streams - CountNamed(pads, name, kind) == rest;
    Wrap32Identity(rest);
  }

  lemma ReleaseEffect(s: Element, name: nat)
    requires Count(s.pads, Audio) == s.audioStreams && Count(s.pads, Video) == s.videoStreams
    ensures var s' := ReleasePad(s, name);
      && Count(s'.pads, Audio) == s'.audioStreams <= s.audioStreams
      && Count(s'.pads, Video) == s'.videoStreams <= s.videoStreams
  {
    ReleaseCounts(s.pads, name, Audio, s.audioStreams);
    ReleaseCounts(s.pads, name, Video, s.videoStreams);
  }

  lemma ReleaseKeepsInv(s: Element, name: nat)
    requires PadInv(s)
    ensures PadInv(ReleasePad(s, name))
  {
    ReleaseEffect(s, name);
    WithoutKeepsOk(s.pads, name, s.media, s.nextName);
  }

  lemma PrepareKeepsInv(s: Element, upTo: nat)
    requires PadInv(s)
    ensures PadInv(s.(pads := Prepare(s.pads, s.media, upTo)))
  {
    PrepareCounts(s.pads, s.media, upTo, Audio);
    PrepareCounts(s.pads, s.media, upTo, Video);
  }

  lemma {:induction false} RunKeepsPadInv(es: seq<Event>)
    ensures PadInv(Run(FreshElement(), es))
  {
    if es != [] {
      var s := Run(FreshElement(), es[..|es| - 1]);
      RunKeepsPadInv(es[..|es| - 1]);
      match es[|es| - 1]
      case Request(kind) => RequestKeepsInv(s, kind);
      case Release(name) => ReleaseKeepsInv(s, name);
      case FailedReady(prepared, created) => PrepareKeepsInv(s, if created then |s.pads| else prepared);
    }
  }

  // ----- what requests and releases do -----------------------------------------------------------

  /** Names are handed out in ascending order, so no two pads share one. */
  ghost predicate NamesAscend(s: Element) {
    && (forall i, j :: 0 <= i < j < |s.pads| ==> s.pads[i].name < s.pads[j].name)
    && (forall i :: 0 <= i < |s.pads| ==> s.pads[i].name < s.nextName)
  }

  function Removed(pads: seq<Pad>, k: nat): seq<Pad>
    requires k < |pads|
  {
    pads[..k] + pads[k + 1..]
  }

  lemma {:induction false} WithoutOthers(pads: seq<Pad>, name: nat)
    requires forall i :: 0 <= i < |pads| ==> pads[i].name != name
    ensures Without(pads, name) == pads && CountNamed(pads, name, Audio) == CountNamed(pads, name, Video) == 0
  {
    if pads != [] {
      WithoutOthers(pads[..|pads| - 1], name);
      assert pads == pads[..|pads| - 1] + [pads[|pads| - 1]];
    }
  }

  lemma {:induction false} WithoutOne(pads: seq<Pad>, k: nat)
    requires k < |pads| && forall i :: 0 <= i < |pads| && i != k ==> pads[i].name != pads[k].name
    ensures Without(pads, pads[k].name) == Removed(pads, k)
    ensures CountNamed(pads, pads[k].name, Audio) == if pads[k].kind.Audio? then 1 else 0
    ensures CountNamed(pads, pads[k].name, Video) == if pads[k].kind.Video? then 1 else 0
  {
    var front := pads[..|pads| - 1];
    if k == |front| {
      WithoutOthers(front, pads[k].name);
      assert Removed(pads, k) == front;
    } else {
      WithoutOne(front, k);
      assert Removed(pads, k) == Removed(front, k) + [pads[|pads| - 1]];
    }
  }

  lemma WithoutKeepsNames(s: Element, name: nat)
    requires NamesAscend(s)
    ensures NamesAscend(ReleasePad(s, name))
  {
    if k :| 0 <= k < |s.pads| && s.pads[k].name == name {
      WithoutOne(s.pads, k);
    } else {
      WithoutOthers(s.pads, name);
    }
  }

  lemma {:induction false} RunKeepsNames(es: seq<Event>)
    ensures NamesAscend(Run(FreshElement(), es))
  {
    if es != [] {
      var s := Run(FreshElement(), es[..|es| - 1]);
      RunKeepsNames(es[..|es| - 1]);
      if es[|es| - 1].Release? {
        WithoutKeepsNames(s, es[|es| - 1].name);
      }
    }
  }

  /** A request is refused exactly if there is a pad of its kind; else the new pad is the last of the list,
      under a new name and on the default track, and the media type is that of the pads there are now. */
  lemma RequestAddsUnlessPresent(es: seq<Event>, kind: TrackKind)
    ensures var s := Run(FreshElement(), es); var s' := RequestPad(s, kind);
      if HasKind(s.pads, kind) then s' == s
      else
        && s'.pads == s.pads + [Pad(s.nextName, kind, DEFAULT_TRACK_ID)] && s'.nextName > s.nextName
        && s'.audioStreams == s.audioStreams + (if kind.Audio? then 1 else 0)
        && s'.videoStreams == s.videoStreams + (if kind.Video? then 1 else 0)
        && (s'.media.AudioVideo? <==> HasKind(s'.pads, Audio) && HasKind(s'.pads, Video))
        && (s'.media.VideoOnly? <==> !HasKind(s'.pads, Audio)) && s'.trackInfo == s.trackInfo
  {
    var s := Run(FreshElement(), es);
    RunKeepsPadInv(es);
    RequestAdds(s, kind);
  }

  lemma RequestAdds(s: Element, kind: TrackKind)
    requires PadInv(s)
    ensures var s' := RequestPad(s, kind);
      if HasKind(s.pads, kind) then s' == s
      else
        && s'.pads == s.pads + [Pad(s.nextName, kind, DEFAULT_TRACK_ID)] && s'.nextName > s.nextName
        && s'.audioStreams == s.audioStreams + (if kind.Audio? then 1 else 0)
        && s'.videoStreams == s.videoStreams + (if kind.Video? then 1 else 0)
        && (s'.media.AudioVideo? <==> HasKind(s'.pads, Audio) && HasKind(s'.pads, Video))
        && (s'.media.VideoOnly? <==> !HasKind(s'.pads, Audio)) && s'.trackInfo == s.trackInfo
  {
    CountZero(s.pads, Audio);
    CountZero(s.pads, Video);
    if !HasKind(s.pads, kind) {
      HasKindAppends(s.pads, Pad(s.nextName, kind, DEFAULT_TRACK_ID), Audio);
      HasKindAppends(s.pads, Pad(s.nextName, kind, DEFAULT_TRACK_ID), Video);
    }
  }

  lemma HasKindAppends(pads: seq<Pad>, p: Pad, kind: TrackKind)
    ensures HasKind(pads + [p], kind) <==> HasKind(pads, kind) || p.kind == kind
  {
    if i :| 0 <= i < |pads| && pads[i].kind == kind {
      assert (pads + [p])[i].kind == kind;
    }
    if p.kind == kind {
      assert (pads + [p])[|pads|].kind == kind;
    }
  }

  /** The k-th pad is gone, and with it its share of the counters; nothing else is touched. */
  ghost predicate TookOff(s: Element, s': Element, k: nat)
    requires k < |s.pads|
  {
    && s'.pads == Removed(s.pads, k)
    && s'.audioStreams == s.audioStreams - (if s.pads[k].kind.Audio? then 1 else 0)
    && s'.videoStreams == s.videoStreams - (if s.pads[k].kind.Video? then 1 else 0)
    && s'.media == s.media && s'.trackInfo == s.trackInfo && s'.nextName == s.nextName
  }

  lemma ReleaseOne(s: Element, k: nat)
    requires PadInv(s) && NamesAscend(s) && k < |s.pads|
    ensures TookOff(s, ReleasePad(s, s.pads[k].name), k)
    ensures forall i :: 0 <= i < |s.pads| - 1 ==> Removed(s.pads, k)[i].name != s.pads[k].name
  {
    WithoutOne(s.pads, k);
    KindIsCounted(s.pads, k);
    Wrap32Identity(s.audioStreams - if s.pads[k].kind.Audio? then 1 else 0);
    Wrap32Identity(s.videoStreams - if s.pads[k].kind.Video? then 1 else 0);
  }

  lemma ReleaseNone(s: Element, name: nat)
    requires forall k :: 0 <= k < |s.pads| ==> s.pads[k].name != name
    ensures ReleasePad(s, name) == s
  {
    WithoutOthers(s.pads, name);
    Wrap32Identity(s.audioStreams);
    Wrap32Identity(s.videoStreams);
  }

  /** A release takes exactly the pad of that name off the list, leaves all others in order, and lowers the
      counter of its kind; a name that is not there changes nothing. The media type stays what it was. */
  lemma ReleaseRemovesExactly(es: seq<Event>, name: nat)
    ensures var s := Run(FreshElement(), es); var s' := ReleasePad(s, name);
      && (forall i :: 0 <= i < |s'.pads| ==> s'.pads[i].name != name)
      && (forall k :: 0 <= k < |s.pads| && s.pads[k].name == name ==>
            TookOff(s, s', k))
      && ((forall k :: 0 <= k < |s.pads| ==> s.pads[k].name != name) ==> s' == s)
  {
    var s := Run(FreshElement(), es);
    RunKeepsNames(es);
    RunKeepsPadInv(es);
    if k :| 0 <= k < |s.pads| && s.pads[k].name == name {
      ReleaseOne(s, k);
    } else {
      ReleaseNone(s, name);
    }
  }

  lemma KindIsCounted(pads: seq<Pad>, k: nat)
    requires k < |pads|
    ensures Count(pads, pads[k].kind) > 0
  {
    CountZero(pads, pads[k].kind);
  }

  /** So a kind whose pad was released can be requested again. */
  lemma ReleasedKindCanBeRequested(es: seq<Event>, k: nat)
    requires k < |Run(FreshElement(), es).pads|
    ensures var s := Run(FreshElement(), es);
      var s' := Run(FreshElement(), es + [Release(s.pads[k].name)] + [Request(s.pads[k].kind)]);
      s'.pads == Removed(s.pads, k) + [Pad(s.nextName, s.pads[k].kind, DEFAULT_TRACK_ID)]
  {
    var s := Run(FreshElement(), es);
    var release := Release(s.pads[k].name);
    assert (es + [release])[..|es|] == es;
    assert (es + [release] + [Request(s.pads[k].kind)])[..|es| + 1] == es + [release];
    ReleaseRemovesExactly(es, s.pads[k].name);
    RunKeepsPadInv(es);
    KindIsCounted(s.pads, k);
    RunKeepsPadInv(es + [release]);
    CountZero(Run(FreshElement(), es + [release]).pads, s.pads[k].kind);
    RequestAddsUnlessPresent(es + [release], s.pads[k].kind);
  }

  // ----- main results ----------------------------------------------------------------------------

  /** A frame from this pad carries a declared track id of the pad's own kind. */
  predicate Declared(s: Element, p: Pad) {
    p.trackId in Definition(s) && Definition(s)[p.trackId] == p.kind
  }

  predicate AllDeclared(s: Element) {
    forall i :: 0 <= i < |s.pads| ==> Declared(s, s.pads[i])
  }

  /** The k-th event is a failed transition that got as far as creating the stream, with audio only. */
  predicate AudioOnlyAttempt(es: seq<Event>, k: nat) {
    k < |es| && es[k].FailedReady? && es[k].created && Run(FreshElement(), es[..k]).media.AudioOnly?
  }

  /** The default track is marked as audio exactly after such an attempt; nothing takes the mark back. */
  lemma {:induction false} MarkedAudioIffAttempted(es: seq<Event>)
    ensures Run(FreshElement(), es).trackInfo.Audio? <==> exists k :: AudioOnlyAttempt(es, k)
  {
    if es != [] {
      var front := es[..|es| - 1];
      MarkedAudioIffAttempted(front);
      forall k: nat | k < |front|
        ensures AudioOnlyAttempt(es, k) <==> AudioOnlyAttempt(front, k)
      {
        assert front[..k] == es[..k];
      }
      if es[|es| - 1].FailedReady? && es[|es| - 1].created && Run(FreshElement(), front).media.AudioOnly? {
        assert AudioOnlyAttempt(es, |es| - 1);
      }
    }
  }

  lemma ReadyDeclaresEveryPadIffUnmarked(es: seq<Event>)
    ensures var s := Run(FreshElement(), es);
      AllDeclared(BecomeReady(s)) <==> s.trackInfo.Video? || !HasKind(s.pads, Video)
  {
    var s := Run(FreshElement(), es);
    RunKeepsPadInv(es);
    var s' := BecomeReady(s);
    if s.trackInfo.Audio? && HasKind(s.pads, Video) {
      var i :| 0 <= i < |s.pads| && s.pads[i].kind == Video;
      assert !Declared(s', s'.pads[i]);
    } else {
      forall i | 0 <= i < |s'.pads|
        ensures Declared(s', s'.pads[i])
      {
        assert PadOk(s.pads[i], s.media, s.nextName);
        assert s.pads[i].kind.Video? ==> HasKind(s.pads, Video);
      }
    }
  }

  /** After any pad requests, releases and failed transitions, the transition to READY declares every pad
      correctly if and only if there is no video pad or no failed attempt had created an audio-only stream. */
  lemma ReadyDeclaresEveryPadIff(es: seq<Event>)
    ensures var s := Run(FreshElement(), es);
      AllDeclared(BecomeReady(s)) <==> !HasKind(s.pads, Video) || !exists k :: AudioOnlyAttempt(es, k)
  {
    ReadyDeclaresEveryPadIffUnmarked(es);
    MarkedAudioIffAttempted(es);
  }

  predicate NeverCreated(es: seq<Event>) {
    forall k :: 0 <= k < |es| ==> !(es[k].FailedReady? && es[k].created)
  }

  /** In particular when the first stream creation is the successful one. */
  lemma FirstReadyDeclaresEveryPad(es: seq<Event>)
    requires NeverCreated(es)
    ensures AllDeclared(BecomeReady(Run(FreshElement(), es)))
  {
    ReadyDeclaresEveryPadIff(es);
  }

  /** The transition gives audio beside video the second track and leaves all else about the pads alone. */
  lemma ReadyNumbersTracks(es: seq<Event>)
    ensures var s := Run(FreshElement(), es); var s' := BecomeReady(s);
      && |s'.pads| == |s.pads|
      && forall i :: 0 <= i < |s.pads| ==>
           s'.pads[i] == s.pads[i].(trackId := if s.media.AudioVideo? && s.pads[i].kind.Audio? then 2 else 1)
  {
    RunKeepsPadInv(es);
    var s := Run(FreshElement(), es);
    assert forall i :: 0 <= i < |s.pads| ==> PadOk(s.pads[i], s.media, s.nextName);
  }

  /** Every declared track has a pad that feeds it, exactly if there is a pad at all and the media type still
      fits the pads: a release does not take a track back. */
  predicate EveryTrackIsFed(s: Element) {
    forall id :: id in Definition(s) ==> exists i :: 0 <= i < |s.pads| && s.pads[i].trackId == id
  }

  lemma EveryTrackIsFedIff(es: seq<Event>)
    ensures var s := Run(FreshElement(), es);
      EveryTrackIsFed(BecomeReady(s)) <==>
        (s.media.AudioVideo? ==> HasKind(s.pads, Audio) && HasKind(s.pads, Video)) && s.pads != []
  {
    var s := Run(FreshElement(), es);
    var s' := BecomeReady(s);
    ReadyNumbersTracks(es);
    assert DEFAULT_TRACK_ID in Definition(s');
    if EveryTrackIsFed(s') && s.media.AudioVideo? {
      assert DEFAULT_AUDIO_TRACK_ID in Definition(s');
      var v :| 0 <= v < |s'.pads| && s'.pads[v].trackId == DEFAULT_TRACK_ID;
      var a :| 0 <= a < |s'.pads| && s'.pads[a].trackId == DEFAULT_AUDIO_TRACK_ID;
      assert s.pads[v].kind.Video? && s.pads[a].kind.Audio?;
    }
    if s.pads != [] && !s.media.AudioVideo? {
      assert s'.pads[0].trackId == DEFAULT_TRACK_ID;
    }
    if s.media.AudioVideo? && HasKind(s.pads, Audio) && HasKind(s.pads, Video) {
      var v :| 0 <= v < |s.pads| && s.pads[v].kind == Video;
      var a :| 0 <= a < |s.pads| && s.pads[a].kind == Audio;
      assert s'.pads[v].trackId == DEFAULT_TRACK_ID && s'.pads[a].trackId == DEFAULT_AUDIO_TRACK_ID;
    }
  }

  /** The input: two pads, of which one is released again before the transition. */
  lemma ReleasedTrackStaysDeclared()
    ensures var es := [Request(Video), Request(Audio), Release(0)];
      !EveryTrackIsFed(BecomeReady(Run(FreshElement(), es)))
  {
    var es := [Request(Video), Request(Audio), Release(0)];
    assert es[..2] == [Request(Video), Request(Audio)] && es[..2][..1] == [Request(Video)] && es[..2][..1][..0] == [];
    var s1 := Step(FreshElement(), es[0]);
    var s2 := Step(s1, es[1]);
    assert Run(FreshElement(), es[..2][..1]) == s1;
    assert Run(FreshElement(), es[..2]) == s2;
    assert s2.media.AudioVideo? && s2.pads == [Pad(0, Video, 1), Pad(1, Audio, 1)];
    ReleaseRemovesExactly(es[..2], 0);
    assert TookOff(s2, ReleasePad(s2, 0), 0);
    EveryTrackIsFedIff(es);
  }

  // ----- frames ----------------------------------------------------------------------------------

  predicate OnPad(b: Buffer, p: Pad) {
    b.kind == p.kind && b.trackId == p.trackId
  }

  predicate FromPads(arrivals: seq<Arrival>, pads: seq<Pad>) {
    forall k :: 0 <= k < |arrivals| ==> exists i :: 0 <= i < |pads| && OnPad(arrivals[k].buffer, pads[i])
  }

  /** Every frame put, in any run of buffers from these pads, carries a declared track id of its pad's kind. */
  ghost predicate FramesDeclared(s: Element) {
    forall c: Config, d: Data, arrivals: seq<Arrival>, k: nat ::
      c.media == s.media && FromPads(arrivals, s.pads) && k < |arrivals| && EffectAt(c, d, arrivals, k).frame.Some? ==>
        var id := EffectAt(c, d, arrivals, k).frame.value.trackId;
        id in Definition(s) && Definition(s)[id] == arrivals[k].buffer.kind
  }

  lemma FramesDeclaredIffPads(s: Element)
    ensures FramesDeclared(s) <==> AllDeclared(s)
  {
    if FramesDeclared(s) {
      forall i | 0 <= i < |s.pads|
        ensures Declared(s, s.pads[i])
      {
        var b := Buffer(false, false, false, false, false, false, 0, 0, true, s.pads[i].kind, s.pads[i].trackId);
        assert OnPad(b, s.pads[i]);
        assert EffectAt(Config(false, false, false, s.media, 0), Fresh(), [Arrival(b, 0, true)], 0).frame.Some?;
      }
    }
  }

  lemma ReadyDeclaresEveryFrameIff(es: seq<Event>)
    ensures var s := Run(FreshElement(), es);
      FramesDeclared(BecomeReady(s)) <==> !HasKind(s.pads, Video) || !exists k :: AudioOnlyAttempt(es, k)
  {
    FramesDeclaredIffPads(BecomeReady(Run(FreshElement(), es)));
    ReadyDeclaresEveryPadIff(es);
  }

  /** A failed stream creation with an audio pad alone spoils a later video pad. */
  lemma FailedAudioAttemptMislabelsVideo()
    ensures var es := [Request(Audio), FailedReady(1, true), Request(Video)];
      !AllDeclared(BecomeReady(Run(FreshElement(), es)))
  {
    var es := [Request(Audio), FailedReady(1, true), Request(Video)];
    assert es[..2] == [Request(Audio), FailedReady(1, true)] && es[..2][..1] == [Request(Audio)] && es[..2][..1][..0] == [];
    var s1 := Step(FreshElement(), es[0]);
    var s2 := Step(s1, es[1]);
    var s3 := Step(s2, es[2]);
    assert Run(FreshElement(), es[..2][..1]) == s1;
    assert Run(FreshElement(), es[..2]) == s2;
    assert Run(FreshElement(), es) == s3;
    assert s3.pads[1].kind == Video;
    ReadyDeclaresEveryPadIffUnmarked(es);
  }

  // ----- the handlers as written -----------------------------------------------------------------

  class KvsSink {
    var pads: seq<Pad>
    var audioStreams: U32
    var videoStreams: U32
    var media: MediaType
    var trackInfo: TrackKind
    var nextName: nat

    ghost function Contents(): Element
      reads this
    {
      Element(pads, audioStreams, videoStreams, media, trackInfo, nextName)
    }

    constructor ()
      ensures Contents() == FreshElement()
    {
      pads, audioStreams, videoStreams, media, trackInfo, nextName := [], 0, 0, VideoOnly, Video, 0;
    }

    method RequestNewPad(kind: TrackKind) returns (added: bool)
      modifies this
      ensures Contents() == RequestPad(old(Contents()), kind)
      ensures added <==> pads != old(pads)
    {
      if kind.Audio? {
        if audioStreams == 1 {
          return false;
        }
        audioStreams := Wrap32(audioStreams + 1);
      } else {
        if videoStreams == 1 {
          return false;
        }
        videoStreams := Wrap32(videoStreams + 1);
      }
      if videoStreams > 0 && audioStreams > 0 {
        media := AudioVideo;
      } else if videoStreams > 0 {
        media := VideoOnly;
      } else {
        media := AudioOnly;
      }
      pads := pads + [Pad(nextName, kind, DEFAULT_TRACK_ID)];
      nextName := nextName + 1;
      added := true;
    }

    method Uncount(kind: TrackKind, ghost audio: int, ghost video: int)
      requires audioStreams == Wrap32(audio) && videoStreams == Wrap32(video)
      modifies `audioStreams, `videoStreams
      ensures audioStreams == Wrap32(audio - if kind.Audio? then 1 else 0)
      ensures videoStreams == Wrap32(video - if kind.Video? then 1 else 0)
    {
      if kind.Video? {
        Wrap32Pred(video);
        videoStreams := Wrap32(videoStreams - 1);
      } else {
        Wrap32Pred(audio);
        audioStreams := Wrap32(audioStreams - 1);
      }
    }

    method ReleaseNamedPad(name: nat)
      modifies `pads, `audioStreams, `videoStreams
      ensures Contents() == ReleasePad(old(Contents()), name)
    {
      ghost var audio, video := audioStreams as int, videoStreams as int;
      var kept := [];
      for i := 0 to |pads|
        invariant pads == old(pads)
        invariant kept == Without(pads[..i], name)
        invariant audio == old(audioStreams) - CountNamed(pads[..i], name, Audio)
        invariant video == old(videoStreams) - CountNamed(pads[..i], name, Video)
        invariant audioStreams == Wrap32(audio) && videoStreams == Wrap32(video)
      {
        PrefixStep(pads, i, name);
        if pads[i].name == name {
          Uncount(pads[i].kind, audio, video);
          if pads[i].kind.Video? { video := video - 1; } else { audio := audio - 1; }
        } else {
          kept := kept + [pads[i]];
        }
      }
      assert pads[..|pads|] == pads;
      pads := kept;
    }

    method InitTrackData()
      modifies this`pads
      ensures pads == Prepare(old(pads), media, |old(pads)|)
    {
      var prepared := [];
      for i := 0 to |pads|
        invariant pads == old(pads)
        invariant prepared == Prepare(pads, media, i)[..i]
      {
        var p := pads[i];
        if media.AudioVideo? {
          p := p.(trackId := if p.kind.Video? then DEFAULT_TRACK_ID else DEFAULT_AUDIO_TRACK_ID);
        }
        prepared := prepared + [p];
      }
      pads := prepared;
    }

    method CreateVideoStream() returns (tracks: map<int, TrackKind>)
      modifies this`trackInfo
      ensures Contents() == CreateStream(old(Contents()))
      ensures tracks == Definition(Contents())
    {
      if media.AudioOnly? {
        trackInfo := Audio;
      }
      tracks := map[DEFAULT_TRACK_ID := trackInfo];
      if media.AudioVideo? {
        tracks := tracks[DEFAULT_AUDIO_TRACK_ID := Audio];
      }
    }
  }

  lemma PrefixStep(pads: seq<Pad>, i: nat, name: nat)
    requires i < |pads|
    ensures Without(pads[..i + 1], name) == Without(pads[..i], name) + if pads[i].name == name then [] else [pads[i]]
    ensures CountNamed(pads[..i + 1], name, Audio)
         == CountNamed(pads[..i], name, Audio) + if pads[i].name == name && pads[i].kind.Audio? then 1 else 0
    ensures CountNamed(pads[..i + 1], name, Video)
         == CountNamed(pads[..i], name, Video) + if pads[i].name == name && pads[i].kind.Video? then 1 else 0
  {
    assert pads[..i + 1][..i] == pads[..i];
  }
}
