/**
 A feature map is the dictionary of named feature values that the upstream
 extraction stage hands to the trend detector (`acc_hf_rms_g`, `envelope_rms`,
 `overall_vel_rms_mm_s`, `temperature_c` and any other named features).

 A Python dictionary has distinct keys and remembers insertion order, so it is
 modelled as a sequence of name/value pairs with pairwise distinct names; the
 order of the sequence is the insertion order.
 */
module FeatureMaps {

  /** No feature name occurs twice. */
  predicate KeysDistinct(pairs: seq<(string, real)>) {
    forall i, j :: 0 <= i < j < |pairs| ==> pairs[i].0 != pairs[j].0
  }

  type FeatureMap = pairs: seq<(string, real)> | KeysDistinct(pairs)

  /** `k in features`: the model searches its list of pairs front to back for the name `k`. */
  predicate HasKey(fm: seq<(string, real)>, k: string)
    ensures HasKey(fm, k) <==> exists i :: 0 <= i < |fm| && fm[i].0 == k
  {
    fm != [] && (fm[0].0 == k || HasKey(fm[1..], k))
  }

  /**
   `features.get(k, default)`: the value stored under `k`, or `default` when
   the map has no entry for `k`.
   */
  function Get(fm: FeatureMap, k: string, default: real): (v: real)
    ensures forall i :: 0 <= i < |fm| && fm[i].0 == k ==> v == fm[i].1
    ensures !HasKey(fm, k) ==> v == default
  {
    if fm == [] then default
    else if fm[0].0 == k then fm[0].1
    else
      var rest: FeatureMap := fm[1..];
      assert forall i :: 1 <= i < |fm| ==> fm[i] == rest[i - 1];
      Get(rest, k, default)
  }

  function Abs(x: real): (r: real)
    ensures r >= 0.0 && (r == x || r == -x)
  {
    if x < 0.0 then -x else x
  }

  /**
   Index `i` holds a value of greatest magnitude, and it is the first such
   index: every earlier entry is strictly smaller in magnitude.
   */
  predicate IsFirstMax(fm: FeatureMap, i: int) {
    && 0 <= i < |fm|
    && (forall j :: 0 <= j < |fm| ==> Abs(fm[j].1) <= Abs(fm[i].1))
    && (forall j :: 0 <= j < i ==> Abs(fm[j].1) < Abs(fm[i].1))
  }

  /**
   The left-to-right scan of Python's `max(features, key=...)`: `best` is the
   entry kept so far among the first `k` entries, and a later entry replaces it
   only when its magnitude is strictly greater.
   */
  function ScanMax(fm: FeatureMap, best: nat, k: nat): (i: nat)
    requires best < k <= |fm|
    requires forall j :: 0 <= j < k ==> Abs(fm[j].1) <= Abs(fm[best].1)
    requires forall j :: 0 <= j < best ==> Abs(fm[j].1) < Abs(fm[best].1)
    ensures best <= i
    ensures IsFirstMax(fm, i)
    decreases |fm| - k
  {
    if k == |fm| then best
    else if Abs(fm[k].1) > Abs(fm[best].1) then ScanMax(fm, k, k + 1)
    else ScanMax(fm, best, k + 1)
  }

  /**
   The position of the key that `max(features, key=lambda k: abs(features[k]))`
   returns. Python raises on an empty dictionary; the caller only asks for a
   map holding at least one entry.
   */
  function DominantIndex(fm: FeatureMap): (i: nat)
    requires |fm| > 0
    ensures IsFirstMax(fm, i)
  {
    ScanMax(fm, 0, 1)
  }

  /** At most one index is the first maximal one, so the dominant key is determined by the map. */
  lemma FirstMaxUnique(fm: FeatureMap, i: int, i': int)
    requires IsFirstMax(fm, i) && IsFirstMax(fm, i')
    ensures i == i'
  {
    var m, m' := Abs(fm[i].1), Abs(fm[i'].1);
    assert m' <= m && m <= m';
    if i < i' {
      assert false;
    } else if i' < i {
      assert false;
    }
  }
}
