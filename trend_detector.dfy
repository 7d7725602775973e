/**
 The trend detector of the early-fault stage. For every (asset, point) pair it
 keeps a bounded first-in first-out history of the feature maps it accepted,
 and it classifies each incoming feature map into a severity level plus a set
 of independent condition flags: high-frequency alarm, envelope confirmation,
 ISO-style velocity zone and temperature alarm, and names the dominant feature.
 */
module TrendDetection {
  import opened Wrappers
  import opened FeatureMaps

  // Feature names the classification reads.
  const HfKey := "acc_hf_rms_g"
  const EnvelopeKey := "envelope_rms"
  const VelocityKey := "overall_vel_rms_mm_s"
  const TemperatureKey := "temperature_c"

  // Thresholds: high-frequency RMS in g, envelope RMS, velocity RMS in mm/s, temperature in degrees C.
  const WatchHf := 0.05
  const WarningHf := 0.12
  const EnvelopeLimit := 0.02
  const ZoneBLimit := 1.8
  const ZoneCLimit := 2.8
  const ZoneDLimit := 4.5
  const TemperatureLimit := 80.0

  /** The history capacity used when none is given. */
  const DefaultHistorySize := 10

  datatype Level = Normal | Watch | Warning

  /** Velocity severity zone, A (good) to D (unacceptable). */
  datatype Zone = A | B | C | D

  /** The outcome of classifying one feature map. */
  datatype TrendResult = TrendResult(
    level: Level,
    score: real,
    dominantFeature: Option<string>,
    hfHigh: bool,
    envelopeHigh: bool,
    velocityZone: Zone,
    temperatureAlarm: bool)

  /** Severity rank of a level, NORMAL lowest. */
  function LevelRank(l: Level): nat {
    match l
    case Normal => 0
    case Watch => 1
    case Warning => 2
  }

  /** Severity rank of a velocity zone, A lowest. */
  function ZoneRank(z: Zone): nat {
    match z
    case A => 0
    case B => 1
    case C => 2
    case D => 3
  }

  /** The level band of a high-frequency RMS amplitude. */
  function LevelOf(hf: real): (l: Level)
    ensures l == Normal <==> hf < WatchHf
    ensures l == Watch <==> WatchHf <= hf < WarningHf
    ensures l == Warning <==> WarningHf <= hf
  {
    if hf < WatchHf then Normal
    else if hf < WarningHf then Watch
    else Warning
  }

  /** The velocity zone of an overall velocity RMS value. */
  function ZoneOf(vel: real): (z: Zone)
    ensures z == A <==> vel < ZoneBLimit
    ensures z == B <==> ZoneBLimit <= vel < ZoneCLimit
    ensures z == C <==> ZoneCLimit <= vel < ZoneDLimit
    ensures z == D <==> ZoneDLimit <= vel
  {
    if vel < ZoneBLimit then A
    else if vel < ZoneCLimit then B
    else if vel < ZoneDLimit then C
    else D
  }

  /** The result returned for a feature map without a high-frequency RMS entry. */
  const Incomplete := TrendResult(Normal, 0.0, None, false, false, A, false)

  /**
   The classification of a feature map that carries the high-frequency entry.
   Each flag is computed on its own from the current map; the history plays no
   part.
   */
  function ClassifyComplete(fm: FeatureMap): (r: TrendResult)
    requires HasKey(fm, HfKey)
    // the score is the value stored under the high-frequency key
    ensures r.score == Get(fm, HfKey, 0.0)
    ensures r.level == LevelOf(r.score)
    ensures r.hfHigh <==> r.level == Warning
    // missing optional entries read as 0.0
    ensures r.envelopeHigh <==> Get(fm, EnvelopeKey, 0.0) > EnvelopeLimit
    ensures r.velocityZone == ZoneOf(Get(fm, VelocityKey, 0.0))
    ensures r.temperatureAlarm <==> Get(fm, TemperatureKey, 0.0) >= TemperatureLimit
    // the dominant feature is named by the entry `max` picks, the first of greatest magnitude
    ensures r.dominantFeature == Some(fm[DominantIndex(fm)].0)
  {
    var hf := Get(fm, HfKey, 0.0);
    var envelope := Get(fm, EnvelopeKey, 0.0);
    var vel := Get(fm, VelocityKey, 0.0);
    var temp := Get(fm, TemperatureKey, 0.0);
    TrendResult(
      level := LevelOf(hf),
      score := hf,
      dominantFeature := Some(fm[DominantIndex(fm)].0),
      hfHigh := hf >= WarningHf,
      envelopeHigh := envelope > EnvelopeLimit,
      velocityZone := ZoneOf(vel),
      temperatureAlarm := temp >= TemperatureLimit)
  }

  /**
   The classification `update` returns for any feature map: the incomplete
   result when the high-frequency entry is missing, the full classification
   otherwise. For every map the score is the high-frequency value (0.0 when
   missing), the level is its band, and `hfHigh` agrees with WARNING.
   */
  function Classify(fm: FeatureMap): (r: TrendResult)
    ensures r.score == Get(fm, HfKey, 0.0)
    ensures r.level == LevelOf(r.score)
    ensures r.hfHigh <==> r.level == Warning
    ensures r.dominantFeature.Some? <==> HasKey(fm, HfKey)
    ensures !HasKey(fm, HfKey) ==> r == Incomplete
    ensures HasKey(fm, HfKey) ==> r == ClassifyComplete(fm)
  {
    if !HasKey(fm, HfKey) then Incomplete else ClassifyComplete(fm)
  }

  /* ---------- the bounded history ---------- */

  type Key = (string, string)

  /**
   The number of entries a history can hold with `history_size` n: a size of
   zero or below keeps nothing, because the single eviction empties the list.
   */
  function Capacity(size: int): nat {
    if size < 0 then 0 else size
  }

  /** The last `n` elements of `s` (all of `s` when it is shorter). */
  function Latest<T>(s: seq<T>, n: nat): (r: seq<T>)
    ensures |r| == if |s| <= n then |s| else n
  {
    if |s| <= n then s else s[|s| - n..]
  }

  /**
   One history step: append the new map, then drop the oldest entry once if the
   list has grown past `size`. From a history within capacity this keeps
   exactly the newest entries, in arrival order.
   */
  function Pushed<T>(h: seq<T>, f: T, size: int): (r: seq<T>)
    ensures |h| <= Capacity(size) ==> r == Latest(h + [f], Capacity(size))
    ensures |h| <= Capacity(size) ==> |r| <= Capacity(size)
  {
    var appended := h + [f];
    if |appended| > size then appended[1..] else appended
  }

  /** A run of history steps, one per map of `fs`, in order. */
  function PushAll<T>(h: seq<T>, fs: seq<T>, size: int): seq<T>
    decreases |fs|
  {
    if fs == [] then h else PushAll(Pushed(h, fs[0], size), fs[1..], size)
  }

  /** Keeping the newest `n` of `a` and then of what follows is keeping the newest `n` overall. */
  lemma LatestOfLatest<T>(a: seq<T>, b: seq<T>, n: nat)
    ensures Latest(Latest(a, n) + b, n) == Latest(a + b, n)
  {
    if |a| > n {
      var ab := a + b;
      var c := a[|a| - n..] + b;
      assert c == ab[|a| - n..];
      assert Latest(c, n) == c[|b|..];
      assert Latest(ab, n) == ab[|a| - n + |b|..];
    }
  }

  /**
   However many maps arrive for one key, a history that starts within capacity
   holds the newest `Capacity(size)` of everything it has seen, oldest first.
   */
  lemma {:induction false} PushAllKeepsLatest<T>(h: seq<T>, fs: seq<T>, size: int)
    requires |h| <= Capacity(size)
    ensures PushAll(h, fs, size) == Latest(h + fs, Capacity(size))
    decreases |fs|
  {
    var n := Capacity(size);
    if fs == [] {
      assert h + fs == h;
    } else {
      var f, rest := fs[0], fs[1..];
      var h' := Pushed(h, f, size);
      assert h' == Latest(h + [f], n);
      PushAllKeepsLatest(h', rest, size);
      LatestOfLatest(h + [f], rest, n);
      assert h + [f] + rest == h + fs;
    }
  }

  /**
   Starting from an empty history, once at least `Capacity(size)` maps have
   arrived the history is full and holds exactly the most recent ones.
   */
  lemma FullAfterEnoughUpdates<T>(fs: seq<T>, size: int)
    requires |fs| >= Capacity(size)
    ensures |PushAll([], fs, size)| == Capacity(size)
    ensures PushAll([], fs, size) == fs[|fs| - Capacity(size)..]
  {
    var empty: seq<T> := [];
    PushAllKeepsLatest(empty, fs, size);
    assert empty + fs == fs;
  }

  /* ---------- the detector ---------- */

  class TrendDetector {
    /** The rolling history per (asset, point). */
    var history: map<Key, seq<FeatureMap>>
    const historySize: int

    /** No history is longer than the capacity. */
    ghost predicate Valid()
      reads this
    {
      forall k :: k in history ==> |history[k]| <= Capacity(historySize)
    }

    constructor (historySize: int := DefaultHistorySize)
      ensures this.historySize == historySize
      ensures history == map[]
      ensures Valid()
    {
      this.historySize := historySize;
      history := map[];
    }

    /**
     Accepts one feature map for (asset, point). A map without the
     high-frequency entry is classified as incomplete and leaves every history
     untouched; any other map is appended to the key's history, the oldest
     entry being evicted when the capacity is exceeded. Other keys never change.
     */
    method Update(asset: string, point: string, features: FeatureMap) returns (r: TrendResult)
      modifies this
      ensures r == Classify(features)
      ensures old(Valid()) ==> Valid()
      ensures !HasKey(features, HfKey) ==> history == old(history)
      ensures HasKey(features, HfKey) ==>
        var before := if (asset, point) in old(history) then old(history)[(asset, point)] else [];
        history == old(history)[(asset, point) := Pushed(before, features, historySize)]
      ensures forall k :: k != (asset, point) ==> (k in history <==> k in old(history))
      ensures forall k :: k != (asset, point) && k in history ==> history[k] == old(history)[k]
    {
      var key := (asset, point);
      if !HasKey(features, HfKey) {
        r := Incomplete;
        return;
      }
      // `setdefault(key, [])`: a key seen for the first time starts empty
      var hist := if key in history then history[key] else [];
      hist := hist + [features];
      if |hist| > historySize {
        hist := hist[1..];
      }
      history := history[key := hist];
      r := Classify(features);
    }
  }

  /* ---------- properties of the classification ---------- */

  /** A larger high-frequency amplitude never gives a lower level. */
  lemma LevelMonotone(x: real, y: real)
    requires x <= y
    ensures LevelRank(LevelOf(x)) <= LevelRank(LevelOf(y))
  {
  }

  /** A larger velocity never gives a lower zone. */
  lemma ZoneMonotone(x: real, y: real)
    requires x <= y
    ensures ZoneRank(ZoneOf(x)) <= ZoneRank(ZoneOf(y))
  {
  }

  /** Missing envelope, velocity and temperature entries read as 0.0: no envelope flag, zone A, no alarm. */
  lemma MissingOptionalFeatures(fm: FeatureMap)
    ensures !HasKey(fm, EnvelopeKey) ==> !Classify(fm).envelopeHigh
    ensures !HasKey(fm, VelocityKey) ==> Classify(fm).velocityZone == A
    ensures !HasKey(fm, TemperatureKey) ==> !Classify(fm).temperatureAlarm
  {
  }

  /** The level boundaries: 0.05 and 0.12 belong to the upper band. */
  lemma LevelBoundaries()
    ensures LevelOf(0.049) == Normal && LevelOf(0.05) == Watch
    ensures LevelOf(0.119) == Watch && LevelOf(0.12) == Warning
  {
  }

  /** The zone boundaries: 1.8, 2.8 and 4.5 belong to the upper zone. */
  lemma ZoneBoundaries()
    ensures ZoneOf(1.79) == A && ZoneOf(1.8) == B
    ensures ZoneOf(2.79) == B && ZoneOf(2.8) == C
    ensures ZoneOf(4.49) == C && ZoneOf(4.5) == D
  {
  }
}
