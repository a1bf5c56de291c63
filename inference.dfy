/** `model_prediction` and the label table: refreshing the cached copy of
    the trained model, choosing which copy to load, and turning the
    classifier's output vector into a class index and a disease label. The
    classifier itself is outside the model: its output vector is an input. */
module Inference {

  import opened Wrappers

  const BundledModelPath := "trained_model2.keras"
  const CachedModelPath := "local_cache/model.keras"

  /** Whether the cache file exists after the refresh attempt. Online, an
      existing cache is removed first and the bundled model is then copied
      over; offline nothing is touched. If the removal raises, the copy is
      never tried and the cache stays. `copyOk` says whether the copy left
      a file at the cache path (a copy that raises after creating the file
      still leaves one); if it left none after a successful removal, the
      cache is gone. */
  function CacheAfterRefresh(existed: bool, online: bool, removeOk: bool, copyOk: bool): (cached: bool)
    ensures !online ==> cached == existed
    ensures online && existed && !removeOk ==> cached
    ensures online && (removeOk || !existed) ==> (cached <==> copyOk)
  {
    if !online then existed
    else if existed && !removeOk then true
    else copyOk
  }

  /** The cached copy is loaded when it exists, the bundled one otherwise. */
  function SelectModelPath(cached: bool): (path: string)
    ensures path == CachedModelPath <==> cached
    ensures path == BundledModelPath <==> !cached
  {
    if cached then CachedModelPath else BundledModelPath
  }

  /** Offline, an existing cache is used as it is: no probe failure makes
      the bundled model win over the cache. */
  lemma OfflineUsesExistingCache(removeOk: bool, copyOk: bool)
    ensures SelectModelPath(CacheAfterRefresh(true, false, removeOk, copyOk)) == CachedModelPath
  {
  }

  /** The refresh is destructive: online, with a cache that is removed
      and a copy that then leaves no file at the cache path, the previously
      cached model is lost and the bundled model is loaded instead. */
  lemma CopyFailureLosesCache()
    ensures !CacheAfterRefresh(true, true, true, false)
    ensures SelectModelPath(CacheAfterRefresh(true, true, true, false)) == BundledModelPath
  {
  }

  /** The local model cache directory, reduced to whether the cache file
      exists. */
  class ModelCache {
    var cached: bool

    constructor (cached: bool)
      ensures this.cached == cached
    {
      this.cached := cached;
    }

    /** The refresh step of `model_prediction`: `online` is the probe's
        answer, `removeOk` whether the removal succeeds and `copyOk` whether
        the copy leaves a file at the cache path. */
    method Refresh(online: bool, removeOk: bool, copyOk: bool)
      modifies this
      ensures cached == CacheAfterRefresh(old(cached), online, removeOk, copyOk)
    {
      if online {
        if cached {
          if removeOk {
            cached := false;
          } else {
            return;
          }
        }
        if copyOk {
          cached := true;
        }
      }
    }
  }

  /** The first index holding the largest score. */
  ghost predicate IsFirstMax(scores: seq<real>, k: nat)
  {
    && k < |scores|
    && (forall j :: 0 <= j < |scores| ==> scores[j] <= scores[k])
    && (forall j :: 0 <= j < k ==> scores[j] < scores[k])
  }

  /** `np.argmax`: the index of the first maximum; `None` where numpy
      raises on an empty vector. */
  method ArgMax(scores: seq<real>) returns (index: Option<nat>)
    ensures index.None? <==> |scores| == 0
    ensures index.Some? ==> IsFirstMax(scores, index.value)
  {
    if |scores| == 0 {
      return None;
    }
    var best := 0;
    for i := 1 to |scores|
      invariant best < i
      invariant forall j :: 0 <= j < i ==> scores[j] <= scores[best]
      invariant forall j :: 0 <= j < best ==> scores[j] < scores[best]
    {
      if scores[i] > scores[best] {
        best := i;
      }
    }
    index := Some(best);
  }

  /** At most one index is the first maximum, so `ArgMax` is determined by
      its contract. */
  lemma FirstMaxUnique(scores: seq<real>, k1: nat, k2: nat)
    requires IsFirstMax(scores, k1) && IsFirstMax(scores, k2)
    ensures k1 == k2
  {
    var first, second := scores[k1], scores[k2];
    assert first <= second && second <= first;
  }

  /** A stub classifier answering [0.1, 0.9, 0.0] yields class 1, and a tie
      goes to the earlier index. */
  lemma ArgMaxExamples(k: nat, t: nat)
    requires IsFirstMax([0.1, 0.9, 0.0], k)
    requires IsFirstMax([0.5, 0.2, 0.5], t)
    ensures k == 1 && t == 0
  {
    var s := [0.1, 0.9, 0.0];
    assert s[0] < s[1] && s[2] < s[1];
    var u := [0.5, 0.2, 0.5];
    assert u[0] == u[2];
  }

  /** The class names in the classifier's output order. */
  const ClassNames: seq<string> := [
    "Tomato___Bacterial_spot",
    "Tomato___Early_blight",
    "Tomato___Late_blight",
    "Tomato___Leaf_Mold",
    "Tomato___Septoria_leaf_spot",
    "Tomato___Spider_mites Two-spotted_spider_mite",
    "Tomato___Target_Spot",
    "Tomato___Tomato_Yellow_Leaf_Curl_Virus",
    "Tomato___Tomato_mosaic_virus",
    "Tomato___healthy"
  ]

  /** The label at position `index` of the label list; `None` where
      Python raises IndexError. */
  function ClassName(index: nat): (name: Option<string>)
    ensures |ClassNames| == 10
    ensures name.Some? <==> index < 10
    ensures name.Some? ==> name.value == ClassNames[index]
  {
    if index < |ClassNames| then Some(ClassNames[index]) else None
  }

  /** `model_prediction` with the classifier's output vector `scores` as an
      input: refresh the cache, pick the model file, take the argmax. */
  method ModelPrediction(cache: ModelCache, online: bool, removeOk: bool, copyOk: bool, scores: seq<real>)
    returns (modelPath: string, index: Option<nat>)
    modifies cache
    ensures cache.cached == CacheAfterRefresh(old(cache.cached), online, removeOk, copyOk)
    ensures modelPath == SelectModelPath(cache.cached)
    ensures index.None? <==> |scores| == 0
    ensures index.Some? ==> IsFirstMax(scores, index.value)
  {
    cache.Refresh(online, removeOk, copyOk);
    modelPath := SelectModelPath(cache.cached);
    index := ArgMax(scores);
  }
}
