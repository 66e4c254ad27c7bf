/**
 * The feature vector that MapView hands to the predictive model: what each
 * of its 76 slots holds after a Wi-Fi scan, before feature scaling.
 */
module Features {

  /** Number of slots in the vector: one per known access point, then the heading. */
  const VectorLength: nat := 76
  /** The last slot holds the heading written after the scan loop. */
  const HeadingSlot: nat := VectorLength - 1
  /** Number of levels asked of `calculateSignalLevel`. */
  const SignalLevels: int := 100

  datatype Option<T> = None | Some(value: T)

  /** One entry of the Wi-Fi scan: the network's SSID and its raw RSSI level. */
  datatype ScanResult = ScanResult(ssid: string, level: int)

  /**
   * The training index loaded from JSON. A key present in the map is one for
   * which `has` answers true; its value is what `getInt` returns, or None
   * when `getInt` throws (the value is not a number).
   */
  type TrainIndex = map<string, Option<int>>

  /** `calculateSignalLevel(rssi, numLevels)`, a foreign function. */
  type SignalLevelFn = (int, int) -> int

  /** Scanning `r` writes slot `k`: its SSID is indexed and the index yields `k`. */
  predicate Writes(idx: TrainIndex, r: ScanResult, k: int) {
    r.ssid in idx && idx[r.ssid] == Some(k)
  }

  /** Scanning `r` writes some slot. */
  predicate WritesSome(idx: TrainIndex, r: ScanResult) {
    r.ssid in idx && idx[r.ssid].Some?
  }

  /**
   * Every slot the scan would write lies inside the vector; an index outside
   * it makes the array store throw, which nothing catches.
   */
  predicate SlotsInRange(idx: TrainIndex, scans: seq<ScanResult>) {
    forall i :: 0 <= i < |scans| && WritesSome(idx, scans[i]) ==>
      0 <= idx[scans[i].ssid].value < VectorLength
  }

  /**
   * Reference value of slot `k` after the scan loop: the signal level of the
   * LAST scan result that writes `k`, or 0 (Java's default) when none does.
   */
  function SlotValue(idx: TrainIndex, scans: seq<ScanResult>, level: SignalLevelFn, k: int): int
    decreases |scans|
  {
    if scans == [] then 0
    else
      var r := scans[|scans| - 1];
      if Writes(idx, r, k) then level(r.level, SignalLevels)
      else SlotValue(idx, scans[..|scans| - 1], level, k)
  }

  /** The whole pre-scaling vector: slot values, with the heading in the last slot. */
  function FeatureVector(idx: TrainIndex, scans: seq<ScanResult>, level: SignalLevelFn, heading: int): (v: seq<int>)
    ensures |v| == VectorLength
  {
    seq(VectorLength, k requires 0 <= k < VectorLength =>
      if k == HeadingSlot then heading else SlotValue(idx, scans, level, k))
  }

  /**
   * Last write wins: if scan `j` writes slot `k` and no later scan writes it,
   * the slot holds scan `j`'s level.
   */
  lemma {:induction false} LastWriteWins(idx: TrainIndex, scans: seq<ScanResult>, level: SignalLevelFn, j: nat, k: int)
    requires j < |scans| && Writes(idx, scans[j], k)
    requires forall i :: j < i < |scans| ==> !Writes(idx, scans[i], k)
    ensures SlotValue(idx, scans, level, k) == level(scans[j].level, SignalLevels)
  {
    if j < |scans| - 1 {
      var prefix := scans[..|scans| - 1];
      assert !Writes(idx, scans[|scans| - 1], k);
      assert forall i :: j < i < |prefix| ==> prefix[i] == scans[i];
      LastWriteWins(idx, prefix, level, j, k);
    }
  }

  /** A slot no scan result writes keeps Java's default 0. */
  lemma {:induction false} UnwrittenSlotIsZero(idx: TrainIndex, scans: seq<ScanResult>, level: SignalLevelFn, k: int)
    requires forall i :: 0 <= i < |scans| ==> !Writes(idx, scans[i], k)
    ensures SlotValue(idx, scans, level, k) == 0
  {
    if scans != [] {
      var prefix := scans[..|scans| - 1];
      assert forall i :: 0 <= i < |prefix| ==> prefix[i] == scans[i];
      UnwrittenSlotIsZero(idx, prefix, level, k);
    }
  }

  /**
   * A scan result that writes nothing (SSID not indexed, or an index value
   * `getInt` rejects) can be removed from anywhere in the scan list without
   * changing any slot.
   */
  lemma {:induction false} IgnoredScanChangesNothing(idx: TrainIndex, before: seq<ScanResult>, r: ScanResult,
                                                     after: seq<ScanResult>, level: SignalLevelFn, k: int)
    requires !WritesSome(idx, r)
    ensures SlotValue(idx, before + [r] + after, level, k) == SlotValue(idx, before + after, level, k)
  {
    if after == [] {
      assert (before + [r])[..|before + [r]| - 1] == before;
      assert before + [r] + after == before + [r];
      assert before + after == before;
    } else {
      var last := after[|after| - 1];
      var rest := after[..|after| - 1];
      assert before + [r] + after == (before + [r] + rest) + [last];
      assert before + after == (before + rest) + [last];
      assert (before + [r] + rest + [last])[..|before + [r] + rest + [last]| - 1] == before + [r] + rest;
      assert (before + rest + [last])[..|before + rest + [last]| - 1] == before + rest;
      IgnoredScanChangesNothing(idx, before, r, rest, level, k);
    }
  }

  /** Hence the whole vector is unchanged by such a scan result. */
  lemma IgnoredScanKeepsVector(idx: TrainIndex, before: seq<ScanResult>, r: ScanResult,
                               after: seq<ScanResult>, level: SignalLevelFn, heading: int)
    requires !WritesSome(idx, r)
    ensures FeatureVector(idx, before + [r] + after, level, heading) == FeatureVector(idx, before + after, level, heading)
  {
    forall k | 0 <= k < VectorLength
      ensures FeatureVector(idx, before + [r] + after, level, heading)[k]
           == FeatureVector(idx, before + after, level, heading)[k]
    {
      IgnoredScanChangesNothing(idx, before, r, after, level, k);
    }
  }

  /**
   * Two adjacent scan results that write different slots commute: only the
   * last write to each slot matters, not the order between slots.
   */
  lemma SwapDistinctSlots(idx: TrainIndex, before: seq<ScanResult>, r1: ScanResult, r2: ScanResult,
                          after: seq<ScanResult>, level: SignalLevelFn, heading: int)
    requires WritesSome(idx, r1) && WritesSome(idx, r2)
    requires idx[r1.ssid] != idx[r2.ssid]
    ensures FeatureVector(idx, before + [r1, r2] + after, level, heading)
         == FeatureVector(idx, before + [r2, r1] + after, level, heading)
  {
    forall k | 0 <= k < VectorLength
      ensures SlotValue(idx, before + [r1, r2] + after, level, k) == SlotValue(idx, before + [r2, r1] + after, level, k)
    {
      SwapDistinctSlotValue(idx, before, r1, r2, after, level, k);
    }
  }

  lemma {:induction false} SwapDistinctSlotValue(idx: TrainIndex, before: seq<ScanResult>, r1: ScanResult, r2: ScanResult,
                                                 after: seq<ScanResult>, level: SignalLevelFn, k: int)
    requires WritesSome(idx, r1) && WritesSome(idx, r2)
    requires idx[r1.ssid] != idx[r2.ssid]
    ensures SlotValue(idx, before + [r1, r2] + after, level, k) == SlotValue(idx, before + [r2, r1] + after, level, k)
  {
    if after == [] {
      var s12 := before + [r1, r2];
      var s21 := before + [r2, r1];
      assert before + [r1, r2] + after == s12;
      assert before + [r2, r1] + after == s21;
      assert s12[..|s12| - 1] == before + [r1] && s12[|s12| - 1] == r2;
      assert s21[..|s21| - 1] == before + [r2] && s21[|s21| - 1] == r1;
      assert (before + [r1])[..|before|] == before && (before + [r2])[..|before|] == before;
    } else {
      var last := after[|after| - 1];
      var rest := after[..|after| - 1];
      var a := before + [r1, r2] + rest;
      var b := before + [r2, r1] + rest;
      assert before + [r1, r2] + after == a + [last];
      assert before + [r2, r1] + after == b + [last];
      assert (a + [last])[..|a|] == a;
      assert (b + [last])[..|b|] == b;
      SwapDistinctSlotValue(idx, before, r1, r2, rest, level, k);
    }
  }

  /** With no scan results every slot but the heading is 0. */
  lemma EmptyScanVector(idx: TrainIndex, level: SignalLevelFn, heading: int)
    ensures FeatureVector(idx, [], level, heading)[HeadingSlot] == heading
    ensures forall k :: 0 <= k < HeadingSlot ==> FeatureVector(idx, [], level, heading)[k] == 0
  {
  }

  /**
   * When `calculateSignalLevel` keeps to its documented range [0, numLevels),
   * every slot but the heading lies in [0, 100).
   */
  lemma {:induction false} SlotValueInLevelRange(idx: TrainIndex, scans: seq<ScanResult>, level: SignalLevelFn, k: int)
    requires forall i :: 0 <= i < |scans| ==> 0 <= level(scans[i].level, SignalLevels) < SignalLevels
    ensures 0 <= SlotValue(idx, scans, level, k) < SignalLevels
  {
    if scans != [] {
      var prefix := scans[..|scans| - 1];
      assert forall i :: 0 <= i < |prefix| ==> prefix[i] == scans[i];
      SlotValueInLevelRange(idx, prefix, level, k);
    }
  }
}
