/**
 * The map view's estimation path: the position indicator's state, building
 * the feature vector from a Wi-Fi scan, one estimation step, orientation
 * updates, and the paced loop of the draw thread.
 */
module Localization {
  import opened JavaInt
  import opened Features
  import Pacing

  /** Factor from model grid units to drawing pixels. */
  const PixelsPerUnit: int := 50

  /** The indicator's state as a value: pixel position and heading in degrees. */
  datatype Pose = Pose(x: int32, y: int32, angle: int32)

  /**
   * The composed estimator: feature scaling, the predictive model, and
   * `Math.round` of its outputs, as one function of the pre-scaling vector.
   */
  type Predictor = seq<int> -> seq<int32>

  /** Grid coordinate to pixels with Java's 32-bit `int` multiplication. */
  function ToPixels(v: int32): (p: int32)
    ensures -42949672 <= v <= 42949672 ==> p as int == v as int * PixelsPerUnit
    ensures (p as int - v as int * PixelsPerUnit) % Modulus == 0
  {
    Wrap(v as int * PixelsPerUnit)
  }

  /** A grid coordinate too large for `int` pixels wraps round to a negative one. */
  lemma ToPixelsOverflows()
    ensures ToPixels(42949673) == -2147483646
  {
  }

  /** The model's output for `input` carries at least the two coordinates read from it. */
  predicate Predicts(predict: Predictor, input: seq<int>) {
    |predict(input)| >= 2
  }

  /**
   * One estimation step on the pose: with Wi-Fi enabled, the position is
   * replaced by the model's first two outputs in pixels; the heading never
   * changes here.
   */
  function Estimate(idx: TrainIndex, level: SignalLevelFn, predict: Predictor,
                    p: Pose, wifiEnabled: bool, scans: seq<ScanResult>): Pose
    requires wifiEnabled ==> Predicts(predict, FeatureVector(idx, scans, level, p.angle as int))
  {
    if wifiEnabled then
      var output := predict(FeatureVector(idx, scans, level, p.angle as int));
      Pose(ToPixels(output[0]), ToPixels(output[1]), p.angle)
    else p
  }

  /** One pass of the draw loop as seen from outside: Wi-Fi state, scan, and two clock readings. */
  datatype Tick = Tick(wifiEnabled: bool, scans: seq<ScanResult>, startTime: int, endTime: int)

  /** Every tick that estimates gets a two-coordinate answer from the model at heading `angle`. */
  predicate TicksPredict(idx: TrainIndex, level: SignalLevelFn, predict: Predictor, angle: int32, ticks: seq<Tick>) {
    forall i :: 0 <= i < |ticks| && ticks[i].wifiEnabled ==>
      Predicts(predict, FeatureVector(idx, ticks[i].scans, level, angle as int))
  }

  /** The scan of every tick that estimates only writes slots inside the vector. */
  predicate TicksInRange(idx: TrainIndex, ticks: seq<Tick>) {
    forall i :: 0 <= i < |ticks| && ticks[i].wifiEnabled ==> SlotsInRange(idx, ticks[i].scans)
  }

  /** The work time of each tick, `endTime - startTime`. */
  function Deltas(ticks: seq<Tick>): seq<int> {
    seq(|ticks|, i requires 0 <= i < |ticks| => ticks[i].endTime - ticks[i].startTime)
  }

  /** Wall time of a run: each tick's work time plus the sleep after it. */
  function WallTime(ticks: seq<Tick>, sleeps: seq<nat>): int
    requires |sleeps| == |ticks|
  {
    if ticks == [] then 0
    else
      var n := |ticks| - 1;
      WallTime(ticks[..n], sleeps[..n]) + (ticks[n].endTime - ticks[n].startTime) + sleeps[n]
  }

  /**
   * When each sleep follows the pacing rule, the wall time of a run is the
   * run duration of its work times, so the pacing lemmas apply to it.
   */
  lemma {:induction false} WallTimeIsRunDuration(ticks: seq<Tick>, sleeps: seq<nat>)
    requires |sleeps| == |ticks|
    requires forall i :: 0 <= i < |ticks| ==> sleeps[i] == Pacing.SleepMillis(ticks[i].endTime - ticks[i].startTime)
    ensures WallTime(ticks, sleeps) == Pacing.RunDuration(Deltas(ticks))
  {
    if ticks != [] {
      var n := |ticks| - 1;
      WallTimeIsRunDuration(ticks[..n], sleeps[..n]);
      assert Deltas(ticks)[..n] == Deltas(ticks[..n]);
    }
  }

  /** The pose after running `ticks` in order from `p`; no step touches the heading. */
  function Replay(idx: TrainIndex, level: SignalLevelFn, predict: Predictor, p: Pose, ticks: seq<Tick>): (r: Pose)
    requires TicksPredict(idx, level, predict, p.angle, ticks)
    ensures r.angle == p.angle
    decreases |ticks|
  {
    if ticks == [] then p
    else
      var t := ticks[|ticks| - 1];
      var q := Replay(idx, level, predict, p, ticks[..|ticks| - 1]);
      Estimate(idx, level, predict, q, t.wifiEnabled, t.scans)
  }

  /** Index of the last tick that ran an estimation, if any. */
  function LastEstimating(ticks: seq<Tick>): (r: Option<nat>)
    ensures r.Some? ==> r.value < |ticks| && ticks[r.value].wifiEnabled
    ensures r.Some? ==> forall i :: r.value < i < |ticks| ==> !ticks[i].wifiEnabled
    ensures r.None? ==> forall i :: 0 <= i < |ticks| ==> !ticks[i].wifiEnabled
  {
    if ticks == [] then None
    else if ticks[|ticks| - 1].wifiEnabled then Some(|ticks| - 1)
    else LastEstimating(ticks[..|ticks| - 1])
  }

  /**
   * After a run the indicator shows the estimate of the last tick that had
   * Wi-Fi enabled, or the starting position when no tick had; the heading is
   * the starting one.
   */
  lemma {:induction false} ReplayShowsLastEstimate(idx: TrainIndex, level: SignalLevelFn, predict: Predictor,
                                                   p: Pose, ticks: seq<Tick>)
    requires TicksPredict(idx, level, predict, p.angle, ticks)
    ensures LastEstimating(ticks).None? ==> Replay(idx, level, predict, p, ticks) == p
    ensures LastEstimating(ticks).Some? ==>
      var t := ticks[LastEstimating(ticks).value];
      Replay(idx, level, predict, p, ticks) == Estimate(idx, level, predict, p, true, t.scans)
    decreases |ticks|
  {
    if ticks != [] {
      var rest := ticks[..|ticks| - 1];
      assert TicksPredict(idx, level, predict, p.angle, rest);
      ReplayShowsLastEstimate(idx, level, predict, p, rest);
    }
  }

  /** The Java inner class `PositionIndicator`: drawing position and heading. */
  class PositionIndicator {
    var xPos: int32
    var yPos: int32
    var angle: int32

    function State(): Pose
      reads this
    {
      Pose(xPos, yPos, angle)
    }

    /** Java zero-initialises the three fields. */
    constructor ()
      ensures State() == Pose(0, 0, 0)
    {
      xPos, yPos, angle := 0, 0, 0;
    }

    /** Moves the indicator to grid point (x, y), scaled to pixels; the heading stays. */
    method Update(x: int32, y: int32)
      modifies this
      ensures xPos == ToPixels(x) && yPos == ToPixels(y)
      ensures angle == old(angle)
    {
      xPos := ToPixels(x);
      yPos := ToPixels(y);
    }

    method GetAngle() returns (a: int32)
      ensures a == angle
    {
      a := angle;
    }

    /** Sets the heading; the position stays. */
    method SetAngle(a: int32)
      modifies this
      ensures angle == a
      ensures xPos == old(xPos) && yPos == old(yPos)
    {
      angle := a;
    }
  }

  /**
   * The estimation side of the Java class `MapView`. The training index and
   * the two foreign functions are fixed at construction; the Wi-Fi state, the
   * scan results and the clock readings are passed in where the Java code
   * queries them.
   */
  class MapView {
    const indicator: PositionIndicator
    const trainIndexDict: TrainIndex
    /** `WifiManager.calculateSignalLevel`. */
    const signalLevel: SignalLevelFn
    /** Feature scaling, the predictive model and rounding, composed. */
    const predictor: Predictor

    constructor (dict: TrainIndex, level: SignalLevelFn, predict: Predictor)
      ensures trainIndexDict == dict && signalLevel == level && predictor == predict
      ensures fresh(indicator) && indicator.State() == Pose(0, 0, 0)
    {
      indicator := new PositionIndicator();
      trainIndexDict := dict;
      signalLevel := level;
      predictor := predict;
    }

    /**
     * Builds the pre-scaling feature vector for a scan: the last scan result
     * of each indexed SSID sets its slot, then the current heading overwrites
     * the last slot.
     */
    method ToFeatureVector(scans: seq<ScanResult>) returns (vec: array<int>)
      requires SlotsInRange(trainIndexDict, scans)
      ensures fresh(vec) && vec.Length == VectorLength
      ensures vec[HeadingSlot] == indicator.angle as int
      ensures vec[..] == FeatureVector(trainIndexDict, scans, signalLevel, indicator.angle as int)
    {
      vec := new int[VectorLength](_ => 0);
      for i := 0 to |scans|
        invariant vec.Length == VectorLength
        invariant forall k :: 0 <= k < VectorLength ==> vec[k] == SlotValue(trainIndexDict, scans[..i], signalLevel, k)
      {
        var scanResult := scans[i];
        assert scans[..i + 1][..i] == scans[..i];
        if scanResult.ssid in trainIndexDict {
          var rss := signalLevel(scanResult.level, SignalLevels);
          match trainIndexDict[scanResult.ssid]
          case Some(slot) =>
            vec[slot] := rss;
          case None =>
            // getInt threw: the exception is reported and the write skipped.
        }
      }
      assert scans[..|scans|] == scans;
      var heading := indicator.GetAngle();
      vec[HeadingSlot] := heading as int;
    }

    /**
     * One estimation step: with Wi-Fi enabled, predict from the current scan
     * and move the indicator; otherwise leave it where it is.
     */
    method UpdatePositionIndicator(wifiEnabled: bool, scans: seq<ScanResult>)
      requires wifiEnabled ==> SlotsInRange(trainIndexDict, scans)
      requires wifiEnabled ==>
        Predicts(predictor, FeatureVector(trainIndexDict, scans, signalLevel, indicator.angle as int))
      modifies indicator
      ensures indicator.State() == Estimate(trainIndexDict, signalLevel, predictor, old(indicator.State()), wifiEnabled, scans)
    {
      if wifiEnabled {
        var input := ToFeatureVector(scans);
        var output := predictor(input[..]);
        indicator.Update(output[0], output[1]);
      }
    }

    /** The orientation sensor's callback: store the new heading. */
    method UpdateOrientation(angle: int32)
      modifies indicator
      ensures indicator.State() == old(indicator.State()).(angle := angle)
    {
      indicator.SetAngle(angle);
    }

    /**
     * The draw thread's loop over the ticks it gets to run before its running
     * flag is cleared: estimate, then sleep for the rest of the budget. Returns
     * the sleep of each tick (0 for none).
     */
    method Run(ticks: seq<Tick>) returns (sleeps: seq<nat>)
      requires TicksInRange(trainIndexDict, ticks)
      requires TicksPredict(trainIndexDict, signalLevel, predictor, indicator.angle, ticks)
      modifies indicator
      ensures |sleeps| == |ticks|
      ensures forall i :: 0 <= i < |ticks| ==>
        sleeps[i] == Pacing.SleepMillis(ticks[i].endTime - ticks[i].startTime)
      ensures indicator.State() == Replay(trainIndexDict, signalLevel, predictor, old(indicator.State()), ticks)
      ensures WallTime(ticks, sleeps) == Pacing.RunDuration(Deltas(ticks))
    {
      sleeps := [];
      var n := 0;
      while n < |ticks|
        invariant 0 <= n <= |ticks|
        invariant |sleeps| == n
        invariant forall i :: 0 <= i < n ==> sleeps[i] == Pacing.SleepMillis(ticks[i].endTime - ticks[i].startTime)
        invariant indicator.angle == old(indicator.angle)
        invariant TicksPredict(trainIndexDict, signalLevel, predictor, old(indicator.State()).angle, ticks[..n])
        invariant indicator.State() == Replay(trainIndexDict, signalLevel, predictor, old(indicator.State()), ticks[..n])
      {
        var tick := ticks[n];
        UpdatePositionIndicator(tick.wifiEnabled, tick.scans);
        var deltaTime := tick.endTime - tick.startTime;
        var pause := 0;
        if deltaTime < Pacing.TickBudget {
          pause := Pacing.TickBudget - deltaTime;
        }
        sleeps := sleeps + [pause];
        assert ticks[..n + 1][..n] == ticks[..n];
        n := n + 1;
      }
      assert ticks[..|ticks|] == ticks;
      WallTimeIsRunDuration(ticks, sleeps);
    }
  }

  /**
   * A client tick: two indexed access points, one of them seen at a level
   * that maps to 40, heading 90, and a model answering grid point (4, 5).
   */
  method ExampleTick()
  {
    var dict: TrainIndex := map["AP1" := Some(0), "AP2" := Some(1)];
    var level: SignalLevelFn := (rssi, levels) => if rssi == -60 then 40 else 0;
    var predict: Predictor := input => [4, 5];
    var view := new MapView(dict, level, predict);
    view.UpdateOrientation(90);
    var scans := [ScanResult("AP1", -60), ScanResult("guest", -30)];
    assert SlotsInRange(dict, scans);
    var vec := view.ToFeatureVector(scans);
    assert vec[0] == 40 && vec[1] == 0 && vec[HeadingSlot] == 90 by {
      assert Writes(dict, scans[0], 0) && !WritesSome(dict, scans[1]);
      LastWriteWins(dict, scans, level, 0, 0);
      UnwrittenSlotIsZero(dict, scans, level, 1);
    }
    view.UpdatePositionIndicator(true, scans);
    assert view.indicator.State() == Pose(200, 250, 90);
    view.UpdatePositionIndicator(false, []);
    assert view.indicator.State() == Pose(200, 250, 90);
    view.indicator.SetAngle(270);
    var heading := view.indicator.GetAngle();
    assert heading == 270 && view.indicator.State() == Pose(200, 250, 270);
  }
}
