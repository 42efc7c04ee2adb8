/**
 * The classifier contract: a label map owned by each classifier, the
 * forward lookup used by `classify`, the inverse map and remapping used by
 * `retrain`, and the dispatch to the backends (base, random, Keras,
 * scikit-learn). The machine-learning and imaging libraries are an oracle,
 * `Runtime`, passed in by the caller.
 */
module Classification {
  import opened Outcomes
  import opened Text
  import opened LabelCodec

  type Bytes = seq<bv8>

  /** A raster image as PIL holds it; the model never inspects it except to flatten its pixels. */
  datatype Image = Image(width: int, height: int, mode: string, pixels: seq<int>)

  /** `PredictionRes`: the species name and whether it is fresh. */
  datatype Prediction = Prediction(name: string, isFresh: bool)

  /** An unpickled scikit-learn estimator. */
  datatype SciKitModel = SciKitModel(pickled: Bytes)

  /** Which subclass of `Classifier` an object is, with the state that subclass adds. */
  datatype Backend =
    | BaseBackend                       // `Classifier` itself
    | RandomBackend                     // `RandomClassifier`
    | KerasBackend(modelBytes: Bytes)   // `KerasClassifier`, an h5 file in memory
    | SciKitBackend(model: SciKitModel) // `SciKitClassifier`

  /**
   * What the foreign libraries do, as seen by the classifier:
   * - loadModel: whether h5py and `load_model` accept the bytes;
   * - resizeConvert: PIL `resize((x, y)).convert(mode)`, None when PIL raises;
   * - kerasPredict: `np.argmax(model.predict(batch), axis=1)[0]` for a batch of one, None when it raises;
   * - kerasFitAndSave: `model.fit(X, Y, epochs=5)` followed by saving to a fresh h5 file, None when either raises;
   * - scikitPredict: `model.predict([features])[0]`, None when it raises.
   */
  datatype Runtime = Runtime(
    loadModel: Bytes -> bool,
    resizeConvert: (Image, int, int, string) -> Option<Image>,
    kerasPredict: (Bytes, Image) -> Option<nat>,
    kerasFitAndSave: (Bytes, seq<Image>, seq<int>) -> Option<Bytes>,
    scikitPredict: (SciKitModel, seq<int>) -> Option<int>)

  const UnknownLabel: string := "Unknown"
  const SciKitRetrainMessage: string := "SCIKIT RETRAIN IS NOT IMPLEMENTED YET"

  /**
   * A Python dict from index to label: `labels` holds the entries and
   * `order` lists every key once, in insertion order (the order `items()`
   * visits them).
   */
  ghost predicate IsInsertionOrder(labels: map<int, string>, order: seq<int>) {
    && (forall i :: 0 <= i < |order| ==> order[i] in labels)
    && (forall k :: k in labels ==> k in order)
    && (forall i, j :: 0 <= i < j < |order| ==> order[i] != order[j])
  }

  /** Some index carries label `v`: `v in labels.values()`. */
  ghost predicate HasLabel(labels: map<int, string>, v: string) {
    exists k :: k in labels && labels[k] == v
  }

  /** No two indices carry the same label. */
  ghost predicate Injective(labels: map<int, string>) {
    forall k1, k2 :: k1 in labels && k2 in labels && labels[k1] == labels[k2] ==> k1 == k2
  }

  /** The indices are exactly 0, 1, ..., |labels| - 1. */
  ghost predicate Contiguous(labels: map<int, string>) {
    forall i :: i in labels <==> 0 <= i < |labels|
  }

  // ---------------------------------------------------------------------------
  // Forward lookup (`classify`)
  // ---------------------------------------------------------------------------

  /** `self.labels[res]`, with `"Unknown"` substituted when the index is missing. */
  function LabelAt(labels: map<int, string>, i: int): string {
    if i in labels then labels[i] else UnknownLabel
  }

  /**
   * What `classify` does with the outcome of `_predict`: a raise propagates,
   * `None` is passed on, an index is looked up (or replaced by `"Unknown"`)
   * and its label decoded.
   */
  function AfterPredict(labels: map<int, string>, raw: Outcome<Option<int>>): (r: Outcome<Option<Prediction>>)
    ensures r == Returned(None) <==> raw == Returned(None)
    ensures raw.Raised? ==> r == Raised(raw.fault)
    ensures raw.Returned? && raw.value.Some? ==>
      (r.Returned? <==> ExtractLabelComponents(LabelAt(labels, raw.value.value)).Returned?)
    ensures raw.Returned? && r.Raised? ==> r.fault == UnboundLocalError
    ensures r.Returned? && r.value.Some? ==>
      raw.Returned? && raw.value.Some? && raw.value.value in labels
      && r.value.value.isFresh == StartsWith(labels[raw.value.value], FreshWord)
      && EndsWith(labels[raw.value.value], r.value.value.name)
  {
    match raw
    case Raised(f) => Raised(f)
    case Returned(None) => Returned(None)
    case Returned(Some(i)) =>
      UnknownDoesNotDecode();
      match ExtractLabelComponents(LabelAt(labels, i))
      case Raised(f) => Raised(f)
      case Returned((name, isFresh)) => Returned(Some(Prediction(name, isFresh)))
  }

  // ---------------------------------------------------------------------------
  // Inverse lookup (`retrain`)
  // ---------------------------------------------------------------------------

  /**
   * `labels_swap` after the loop has visited the keys `order` in turn,
   * writing `labels_swap[labels[k]] = k` each time.
   */
  function Inverted(labels: map<int, string>, order: seq<int>): (swap: map<string, int>)
    requires forall i :: 0 <= i < |order| ==> order[i] in labels
    ensures forall v :: v in swap ==> swap[v] in order && labels[swap[v]] == v
    ensures forall i :: 0 <= i < |order| ==> labels[order[i]] in swap
    decreases |order|
  {
    if order == [] then map[]
    else
      var k := order[|order| - 1];
      var prior := Inverted(labels, order[..|order| - 1]);
      assert forall i :: 0 <= i < |order| - 1 ==> order[..|order| - 1][i] == order[i];
      prior[labels[k] := k]
  }

  /**
   * The list comprehension of `retrain`: each `(label, image)` becomes
   * `(labels_swap[label], image)`, left to right; the first label missing
   * from `swap` raises `KeyError`.
   */
  function Remap(swap: map<string, int>, images: seq<(string, Image)>): (r: Outcome<seq<(int, Image)>>)
    ensures r.Returned? <==> forall j :: 0 <= j < |images| ==> images[j].0 in swap
    ensures r.Raised? ==> r.fault.KeyError? && r.fault.key !in swap
    ensures r.Returned? ==>
      && |r.value| == |images|
      && forall j :: 0 <= j < |images| ==> r.value[j] == (swap[images[j].0], images[j].1)
    decreases |images|
  {
    if images == [] then Returned([])
    else if images[0].0 !in swap then Raised(KeyError(images[0].0))
    else
      match Remap(swap, images[1..])
      case Raised(f) => Raised(f)
      case Returned(rest) => Returned([(swap[images[0].0], images[0].1)] + rest)
  }

  /** The indices of a remapped batch, `[image[0] for image in images]`. */
  function Targets(mapped: seq<(int, Image)>): (ys: seq<int>)
    ensures |ys| == |mapped| && forall j :: 0 <= j < |mapped| ==> ys[j] == mapped[j].0
  {
    seq(|mapped|, j requires 0 <= j < |mapped| => mapped[j].0)
  }

  // ---------------------------------------------------------------------------
  // The classifier object
  // ---------------------------------------------------------------------------

  class Classifier {
    const backend: Backend
    const labels: map<int, string>
    const labelOrder: seq<int>
    const imageType: string
    const imageX: int
    const imageY: int

    ghost predicate Valid() {
      IsInsertionOrder(labels, labelOrder)
    }

    /** The fields of `other` that `Classifier.__init__` sets equal those of this object. */
    ghost predicate SameMetadata(other: Classifier) {
      && other.labels == labels && other.labelOrder == labelOrder
      && other.imageType == imageType && other.imageX == imageX && other.imageY == imageY
    }

    /** `Classifier.__init__` on a base classifier. */
    constructor (labels: map<int, string>, labelOrder: seq<int>, imageType: string, imageX: int, imageY: int)
      requires IsInsertionOrder(labels, labelOrder)
      ensures Valid() && backend == BaseBackend
      ensures this.labels == labels && this.labelOrder == labelOrder
      ensures this.imageType == imageType && this.imageX == imageX && this.imageY == imageY
    {
      backend := BaseBackend;
      this.labels, this.labelOrder := labels, labelOrder;
      this.imageType, this.imageX, this.imageY := imageType, imageX, imageY;
    }

    /** `RandomClassifier.__init__`: greyscale, no geometry. */
    constructor Random(labels: map<int, string>, labelOrder: seq<int>)
      requires IsInsertionOrder(labels, labelOrder)
      ensures Valid() && backend == RandomBackend
      ensures this.labels == labels && this.labelOrder == labelOrder
      ensures imageType == "L" && imageX == 0 && imageY == 0
    {
      backend := RandomBackend;
      this.labels, this.labelOrder := labels, labelOrder;
      imageType, imageX, imageY := "L", 0, 0;
    }

    /** `SciKitClassifier.__init__`. */
    constructor SciKit(model: SciKitModel, labels: map<int, string>, labelOrder: seq<int>,
                       imageType: string, imageX: int, imageY: int)
      requires IsInsertionOrder(labels, labelOrder)
      ensures Valid() && backend == SciKitBackend(model)
      ensures this.labels == labels && this.labelOrder == labelOrder
      ensures this.imageType == imageType && this.imageX == imageX && this.imageY == imageY
    {
      backend := SciKitBackend(model);
      this.labels, this.labelOrder := labels, labelOrder;
      this.imageType, this.imageX, this.imageY := imageType, imageX, imageY;
    }

    /** The field assignments of `KerasClassifier.__init__`; `LoadKeras` adds the load check. */
    constructor Keras(h5: Bytes, labels: map<int, string>, labelOrder: seq<int>,
                      imageType: string, imageX: int, imageY: int)
      requires IsInsertionOrder(labels, labelOrder)
      ensures Valid() && backend == KerasBackend(h5)
      ensures this.labels == labels && this.labelOrder == labelOrder
      ensures this.imageType == imageType && this.imageX == imageX && this.imageY == imageY
    {
      backend := KerasBackend(h5);
      this.labels, this.labelOrder := labels, labelOrder;
      this.imageType, this.imageX, this.imageY := imageType, imageX, imageY;
    }

    /**
     * `KerasClassifier(h5, labels, image_type, image_x, image_y)`: the model
     * is loaded once so that bytes Keras cannot read are rejected at
     * construction.
     */
    static method LoadKeras(h5: Bytes, labels: map<int, string>, labelOrder: seq<int>,
                            imageType: string, imageX: int, imageY: int, rt: Runtime)
      returns (r: Outcome<Classifier>)
      requires IsInsertionOrder(labels, labelOrder)
      ensures r.Returned? <==> rt.loadModel(h5)
      ensures r.Raised? ==> r.fault == LibraryError
      ensures r.Returned? ==> fresh(r.value) && r.value.Valid() && r.value.backend == KerasBackend(h5)
      ensures r.Returned? ==> r.value.labels == labels && r.value.labelOrder == labelOrder
      ensures r.Returned? ==> r.value.imageType == imageType && r.value.imageX == imageX && r.value.imageY == imageY
    {
      var c := new Classifier.Keras(h5, labels, labelOrder, imageType, imageX, imageY);
      if rt.loadModel(h5) {
        r := Returned(c);
      } else {
        r := Raised(LibraryError);
      }
    }

    /** `_fix_image`: resize to this classifier's geometry and convert to its colour mode. */
    function FixImage(image: Image, rt: Runtime): (r: Option<Image>)
      ensures r == rt.resizeConvert(image, imageX, imageY, imageType)
    {
      rt.resizeConvert(image, imageX, imageY, imageType)
    }

    /** Every training image normalised by `FixImage`, or None if PIL raises on any. */
    function FixAll(mapped: seq<(int, Image)>, rt: Runtime): (r: Option<seq<Image>>)
      ensures r.Some? <==> forall j :: 0 <= j < |mapped| ==> FixImage(mapped[j].1, rt).Some?
      ensures r.Some? ==>
        && |r.value| == |mapped|
        && forall j :: 0 <= j < |mapped| ==> r.value[j] == FixImage(mapped[j].1, rt).value
      decreases |mapped|
    {
      if mapped == [] then Some([])
      else
        match FixImage(mapped[0].1, rt)
        case None => None
        case Some(x) =>
          match FixAll(mapped[1..], rt)
          case None => None
          case Some(xs) => Some([x] + xs)
    }

    /**
     * `KerasClassifier._predict`: loading the model and normalising the
     * image happen outside the `try`, so their failures raise; only a fault
     * in inference itself is caught and becomes None.
     */
    function KerasPredict(h5: Bytes, image: Image, rt: Runtime): (r: Outcome<Option<int>>)
      ensures r.Raised? <==> !rt.loadModel(h5) || FixImage(image, rt).None?
      ensures r.Raised? ==> r.fault == LibraryError
      ensures r.Returned? ==> r.value == match rt.kerasPredict(h5, FixImage(image, rt).value)
                                         case None => None
                                         case Some(i) => Some(i as int)
      ensures r.Returned? && r.value.Some? ==> r.value.value >= 0
    {
      if !rt.loadModel(h5) then Raised(LibraryError)
      else
        match FixImage(image, rt)
        case None => Raised(LibraryError)
        case Some(fixed) =>
          match rt.kerasPredict(h5, fixed)
          case None => Returned(None)
          case Some(i) => Returned(Some(i as int))
    }

    /**
     * `SciKitClassifier._predict`: the same resize and conversion as
     * `_fix_image`, the pixels flattened into a feature vector; nothing is
     * caught, so it never yields None.
     */
    function SciKitPredict(model: SciKitModel, image: Image, rt: Runtime): (r: Outcome<Option<int>>)
      ensures r.Returned? ==> r.value.Some?
      ensures r.Raised? <==> FixImage(image, rt).None? || rt.scikitPredict(model, FixImage(image, rt).value.pixels).None?
      ensures r.Returned? ==> r.value.value == rt.scikitPredict(model, FixImage(image, rt).value.pixels).value
    {
      match FixImage(image, rt)
      case None => Raised(LibraryError)
      case Some(fixed) =>
        match rt.scikitPredict(model, fixed.pixels)
        case None => Raised(LibraryError)
        case Some(i) => Returned(Some(i))
    }

    /**
     * The outcomes `_predict` may have. The random backend draws any index in
     * `[0, len(labels))`; the base class fails its `assert False`.
     */
    ghost predicate MayPredict(raw: Outcome<Option<int>>, image: Image, rt: Runtime) {
      match backend
      case BaseBackend => raw == Raised(AssertionError(""))
      case RandomBackend =>
        if |labels| == 0 then raw == Raised(ValueError)
        else raw.Returned? && raw.value.Some? && 0 <= raw.value.value < |labels|
      case KerasBackend(h5) => raw == KerasPredict(h5, image, rt)
      case SciKitBackend(model) => raw == SciKitPredict(model, image, rt)
    }

    /** `_predict`, dispatched on the backend. */
    method PredictRaw(image: Image, rt: Runtime) returns (raw: Outcome<Option<int>>)
      ensures MayPredict(raw, image, rt)
      ensures backend.RandomBackend? && |labels| > 0 ==> raw.Returned? && raw.value.Some? && 0 <= raw.value.value < |labels|
      ensures backend.RandomBackend? && |labels| == 0 ==> raw == Raised(ValueError)
    {
      match backend
      case BaseBackend =>
        raw := Raised(AssertionError(""));
      case RandomBackend =>
        if |labels| == 0 {
          raw := Raised(ValueError);
        } else {
          var i :| 0 <= i < |labels|;
          raw := Returned(Some(i));
        }
      case KerasBackend(h5) =>
        raw := KerasPredict(h5, image, rt);
      case SciKitBackend(model) =>
        raw := SciKitPredict(model, image, rt);
    }

    /** `classify`: predict an index, then look it up and decode its label. */
    method Classify(image: Image, rt: Runtime) returns (r: Outcome<Option<Prediction>>, ghost raw: Outcome<Option<int>>)
      ensures MayPredict(raw, image, rt)
      ensures r == AfterPredict(labels, raw)
      ensures backend.BaseBackend? ==> r == Raised(AssertionError(""))
      ensures backend.RandomBackend? && |labels| == 0 ==> r == Raised(ValueError)
      ensures backend.RandomBackend? ==> r != Returned(None)
      ensures backend.KerasBackend? ==> r == AfterPredict(labels, KerasPredict(backend.modelBytes, image, rt))
      ensures backend.SciKitBackend? ==> r == AfterPredict(labels, SciKitPredict(backend.model, image, rt))
    {
      var res := PredictRaw(image, rt);
      raw := res;
      r := AfterPredict(labels, res);
    }

    /**
     * The loop at the head of `retrain`: visit the entries of `labels` in
     * insertion order and record `labels_swap[v] = k` for each.
     */
    method InvertLabels() returns (swap: map<string, int>)
      requires Valid()
      ensures swap == Inverted(labels, labelOrder)
    {
      swap := map[];
      for i := 0 to |labelOrder|
        invariant swap == Inverted(labels, labelOrder[..i])
      {
        var k := labelOrder[i];
        assert labelOrder[..i + 1][..i] == labelOrder[..i];
        swap := swap[labels[k] := k];
      }
      assert labelOrder[..|labelOrder|] == labelOrder;
    }

    /**
     * The payload `KerasClassifier._retrain` produces: load the model,
     * normalise every image with `FixImage`, fit and save. Every step is inside
     * the `try`, so any failure is None.
     */
    function KerasRetrainPayload(h5: Bytes, mapped: seq<(int, Image)>, rt: Runtime): (r: Option<Bytes>)
      ensures r.Some? ==> rt.loadModel(h5) && FixAll(mapped, rt).Some?
      ensures r.Some? ==> rt.kerasFitAndSave(h5, FixAll(mapped, rt).value, Targets(mapped)) == r
      ensures rt.loadModel(h5) && FixAll(mapped, rt).Some? ==>
        r == rt.kerasFitAndSave(h5, FixAll(mapped, rt).value, Targets(mapped))
    {
      if !rt.loadModel(h5) then None
      else
        match FixAll(mapped, rt)
        case None => None
        case Some(xs) => rt.kerasFitAndSave(h5, xs, Targets(mapped))
    }

    /**
     * The outcomes `_retrain` may have: the base and random classifiers fail
     * `assert False`, scikit-learn fails with its own message, Keras yields a
     * new classifier over the new payload with this one's metadata, or None
     * when anything (including loading the new payload) raises.
     */
    ghost predicate RetrainedBy(mapped: seq<(int, Image)>, rt: Runtime, r: Outcome<Option<Classifier>>) {
      match backend
      case BaseBackend => r == Raised(AssertionError(""))
      case RandomBackend => r == Raised(AssertionError(""))
      case SciKitBackend(_) => r == Raised(AssertionError(SciKitRetrainMessage))
      case KerasBackend(h5) =>
        match KerasRetrainPayload(h5, mapped, rt)
        case None => r == Returned(None)
        case Some(nb) =>
          if rt.loadModel(nb) then
            && r.Returned? && r.value.Some? && r.value.value.Valid()
            && r.value.value.backend == KerasBackend(nb) && SameMetadata(r.value.value)
          else r == Returned(None)
    }

    /** `_retrain`, dispatched on the backend. */
    method RetrainBackend(mapped: seq<(int, Image)>, rt: Runtime) returns (r: Outcome<Option<Classifier>>)
      requires Valid()
      ensures RetrainedBy(mapped, rt, r)
      ensures r.Returned? && r.value.Some? ==> fresh(r.value.value)
    {
      match backend
      case BaseBackend =>
        r := Raised(AssertionError(""));
      case RandomBackend =>
        r := Raised(AssertionError(""));
      case SciKitBackend(_) =>
        r := Raised(AssertionError(SciKitRetrainMessage));
      case KerasBackend(h5) =>
        match KerasRetrainPayload(h5, mapped, rt)
        case None =>
          r := Returned(None);
        case Some(nb) =>
          var c := LoadKeras(nb, labels, labelOrder, imageType, imageX, imageY, rt);
          match c
          case Raised(_) =>
            r := Returned(None);
          case Returned(k) =>
            r := Returned(Some(k));
    }

    /**
     * `retrain`: invert the label map, remap the batch, then train. A label
     * missing from the map raises before `_retrain` is reached, so no backend
     * trains; otherwise the outcome is the backend's.
     */
    method Retrain(images: seq<(string, Image)>, rt: Runtime) returns (r: Outcome<Option<Classifier>>)
      requires Valid()
      ensures Remap(Inverted(labels, labelOrder), images).Raised? ==>
        r == Raised(Remap(Inverted(labels, labelOrder), images).fault)
      ensures Remap(Inverted(labels, labelOrder), images).Returned? ==>
        RetrainedBy(Remap(Inverted(labels, labelOrder), images).value, rt, r)
      ensures r.Returned? && r.value.Some? ==> fresh(r.value.value)
    {
      var labelsSwap := InvertLabels();
      var mapped := Remap(labelsSwap, images);
      match mapped
      case Raised(f) =>
        r := Raised(f);
      case Returned(m) =>
        r := RetrainBackend(m, rt);
    }
  }
}
