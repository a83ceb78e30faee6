/** History of stamped frames, split into epochs by the end-of-stream callback.
    Both upload samples add `base` and `start` to every presentation time, track the largest
    presentation time of the epoch in `max`, and move `base` past it when the epoch ends. */
module Epochs {
  import opened Words

  /** One frame that was given timestamps; `put` says it also reached the producer, `pts` is the presentation
      time its buffer came with. */
  datatype Stamp = Stamp(ts: U64, dts: U64, key: bool, put: bool, file: nat, epoch: nat, session: nat, pts: U64)

  datatype Window = Window(lo: int, hi: int)

  /** Windows of the finished epochs: the first begins at `start`, each begins 1 ms after its predecessor. */
  ghost predicate Tiled(closed: seq<Window>, start: int, base: int) {
    && (forall e :: 0 <= e < |closed| ==> closed[e].lo <= closed[e].hi && closed[e].lo == Begin(closed, start, e))
    && start + base == Begin(closed, start, |closed|)
  }

  ghost function Begin(closed: seq<Window>, start: int, e: nat): int
    requires e <= |closed|
  {
    if e == 0 then start else closed[e - 1].hi + NS_PER_MS
  }

  /** Where the frames of an epoch must lie. */
  ghost function WindowOf(closed: seq<Window>, start: int, base: int, max: int, e: nat): Window {
    if e < |closed| then closed[e] else Window(start + base, start + base + max)
  }

  ghost predicate Inside(s: Stamp, closed: seq<Window>, start: int, base: int, max: int) {
    && s.epoch <= |closed|
    && WindowOf(closed, start, base, max, s.epoch).lo <= s.ts <= WindowOf(closed, start, base, max, s.epoch).hi
  }

  ghost predicate Framed(log: seq<Stamp>, closed: seq<Window>, start: int, base: int, max: int) {
    && 0 <= max
    && Tiled(closed, start, base)
    && (forall k :: 0 <= k < |log| ==> Inside(log[k], closed, start, base, max))
  }

  /** Frames of a later epoch lie at least 1 ms above, in nanoseconds, in units and in milliseconds. */
  ghost predicate Separated(log: seq<Stamp>) {
    forall i, j :: 0 <= i < |log| && 0 <= j < |log| && log[i].epoch < log[j].epoch ==> Below(log[i].ts, log[j].ts)
  }

  ghost predicate Below(a: U64, b: U64) {
    && a + NS_PER_MS <= b
    && ToUnits(a) < ToUnits(b)
    && a / NS_PER_MS < b / NS_PER_MS
  }

  lemma {:induction false} WindowsAscend(closed: seq<Window>, start: int, base: int, e: nat, later: nat)
    requires Tiled(closed, start, base) && e < later <= |closed|
    ensures closed[e].hi + NS_PER_MS <= Begin(closed, start, later)
  {
    if e + 1 < later {
      WindowsAscend(closed, start, base, e, later - 1);
    }
  }

  lemma FramedImpliesSeparated(log: seq<Stamp>, closed: seq<Window>, start: int, base: int, max: int)
    requires Framed(log, closed, start, base, max)
    ensures Separated(log)
  {
    forall i, j | 0 <= i < |log| && 0 <= j < |log| && log[i].epoch < log[j].epoch
      ensures Below(log[i].ts, log[j].ts)
    {
      assert Inside(log[i], closed, start, base, max) && Inside(log[j], closed, start, base, max);
      WindowsAscend(closed, start, base, log[i].epoch, log[j].epoch);
      MillisecondGapSurvivesFlooring(log[i].ts, log[j].ts);
      SignedTripIsExact(log[i].ts);
      SignedTripIsExact(log[j].ts);
    }
  }

  /** Stamping a frame of the current epoch keeps the windows, with the maximum updated. */
  lemma StampKeepsFramed(log: seq<Stamp>, closed: seq<Window>, start: int, base: int, max: int, s: Stamp, pts: nat)
    requires Framed(log, closed, start, base, max)
    requires s.epoch == |closed| && s.ts == start + base + pts
    ensures Framed(log + [s], closed, start, base, Max(max, pts))
  {}

  lemma TiledExtends(closed: seq<Window>, start: int, base: int, win: Window)
    requires Tiled(closed, start, base) && win.lo == start + base <= win.hi
    ensures Tiled(closed + [win], start, win.hi + NS_PER_MS - start)
  {
    var closed' := closed + [win];
    forall e | 0 <= e < |closed'|
      ensures closed'[e].lo <= closed'[e].hi && closed'[e].lo == Begin(closed', start, e)
    {
      assert Begin(closed', start, e) == Begin(closed, start, e);
    }
  }

  /** Ending the epoch turns its range into a closed window. */
  lemma AdvanceKeepsFramed(log: seq<Stamp>, closed: seq<Window>, start: int, base: int, max: int, base': int)
    requires Framed(log, closed, start, base, max) && base' == base + max + NS_PER_MS
    ensures Framed(log, closed + [Window(start + base, start + base + max)], start, base', 0)
  {
    var win := Window(start + base, start + base + max);
    TiledExtends(closed, start, base, win);
    forall k | 0 <= k < |log|
      ensures Inside(log[k], closed + [win], start, base', 0)
    {
      assert Inside(log[k], closed, start, base, max);
    }
  }

  // ----- the exact place of every frame ----------------------------------------------------------

  /** Largest presentation time an epoch's buffers came with, 0 if it has none. */
  function Length(log: seq<Stamp>, epoch: nat): nat {
    if log == [] then 0
    else
      var front, last := Length(log[..|log| - 1], epoch), log[|log| - 1];
      if last.epoch == epoch && last.pts > front then last.pts else front
  }

  /** Where an epoch begins: after the lengths of all epochs before it, with 1 ms after each. */
  function Offset(log: seq<Stamp>, epoch: nat): nat {
    if epoch == 0 then 0 else Offset(log, epoch - 1) + Length(log, epoch - 1) + NS_PER_MS
  }

  ghost predicate InPlace(s: Stamp, log: seq<Stamp>, start: int) {
    s.ts == start + Offset(log, s.epoch) + s.pts
  }

  /** Every frame lies at its own presentation time after the beginning of its epoch. */
  ghost predicate Placed(log: seq<Stamp>, epochs: nat, start: int, base: int, max: int) {
    && base == Offset(log, epochs) && max == Length(log, epochs)
    && forall k :: 0 <= k < |log| ==> log[k].epoch <= epochs && InPlace(log[k], log, start)
  }

  lemma LengthAppends(log: seq<Stamp>, s: Stamp, epoch: nat)
    ensures Length(log + [s], epoch) == if s.epoch == epoch then Max(Length(log, epoch), s.pts) else Length(log, epoch)
  {
    assert (log + [s])[..|log|] == log;
  }

  lemma {:induction false} OffsetAppends(log: seq<Stamp>, s: Stamp, epoch: nat)
    requires epoch <= s.epoch
    ensures Offset(log + [s], epoch) == Offset(log, epoch)
  {
    if epoch > 0 {
      OffsetAppends(log, s, epoch - 1);
      LengthAppends(log, s, epoch - 1);
    }
  }

  lemma {:induction false} NoLength(log: seq<Stamp>, epoch: nat)
    requires forall k :: 0 <= k < |log| ==> log[k].epoch < epoch
    ensures Length(log, epoch) == 0
  {
    if log != [] {
      NoLength(log[..|log| - 1], epoch);
    }
  }

  lemma StampKeepsPlaced(log: seq<Stamp>, start: int, base: int, max: int, s: Stamp)
    requires Placed(log, s.epoch, start, base, max) && s.ts == start + base + s.pts
    ensures Placed(log + [s], s.epoch, start, base, Max(max, s.pts))
  {
    LengthAppends(log, s, s.epoch);
    OffsetAppends(log, s, s.epoch);
    forall k | 0 <= k < |log|
      ensures InPlace(log[k], log + [s], start)
    {
      assert InPlace(log[k], log, start);
      OffsetAppends(log, s, log[k].epoch);
    }
  }

  lemma AdvanceKeepsPlaced(log: seq<Stamp>, epochs: nat, start: int, base: int, max: int)
    requires Placed(log, epochs, start, base, max)
    ensures Placed(log, epochs + 1, start, base + max + NS_PER_MS, 0)
  {
    NoLength(log, epochs + 1);
  }

  /** Time used up by a number of epochs, each with presentation times up to the bound. */
  function Budget(epochs: nat, bound: nat): nat {
    if epochs == 0 then 0 else Budget(epochs - 1, bound) + bound + NS_PER_MS
  }

  lemma {:induction false} BudgetIsProduct(epochs: nat, bound: nat)
    ensures Budget(epochs, bound) == epochs * (bound + NS_PER_MS)
  {
    if epochs > 0 {
      BudgetIsProduct(epochs - 1, bound);
      assert epochs * (bound + NS_PER_MS) == (epochs - 1) * (bound + NS_PER_MS) + bound + NS_PER_MS;
    }
  }
}
