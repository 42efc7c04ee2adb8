# Fruitrient classifier contract, modelled in Dafny

Fruitrient classifies produce images into a species and a freshness state.
Its classifier layer (`backend/fruitrient/app/classification.py`) has a few parts:

- **Label codec.** A compound label such as `freshApple` packs the species and the freshness into one class name.
  `extract_label_components` splits it again.
- **Abstract `Classifier`.** It owns an index-to-label map and the image geometry.
  `classify` looks up the index that a backend predicts and decodes its label.
- **Retraining.** `retrain` inverts the label map, turns every `(label, image)` training pair into an `(index, image)` pair, and hands the batch to the backend.
- **Backends.** There are three: a random baseline, a Keras model kept as h5 bytes, and a scikit-learn estimator.
  Retraining the Keras backend yields a new classifier with the same metadata.

The model has four modules:

- `Outcomes` (`outcomes.dfy`): Python's `Optional` results and raised exceptions, written as values (`Option`, `Outcome`, `Fault`).
- `Text` (`text.dfy`): `str.startswith`, `str.find` and `str.split(sep)[-1]`.
  Split follows Python's left-to-right scan for non-overlapping matches.
- `LabelCodec` (`label_codec.dfy`): the decoder, an encoder as its partner, and the round-trip lemmas.
- `Classification` (`classification.py`'s classes, in `classification.dfy`):
  - `Classifier` is a class whose fields are `const`, because the source assigns them only in `__init__`.
    The subclass is a closed `Backend` datatype.
  - The Python dict keeps its insertion order. The model stores that order as `labelOrder`, next to the `labels` map.
    This lets the `for` loop that builds `labels_swap` be a method whose loop is proved against `Inverted`, and "the last key wins" becomes a lemma.
  - The imaging and machine-learning libraries form the `Runtime` datatype. It is a set of functions passed in by the caller.
    `_fix_image` is `Classifier.FixImage`. The Keras predict path, the Keras retrain path (through `FixAll`) and the scikit-learn predict path (which inlines the same resize and convert) all call it.
  - `random.randrange(0, len(labels))` is a choice of any index in that range. It raises `ValueError` when the map is empty.
- `ClassifierProperties` (`classifier_properties.dfy`): lemmas that relate the operations, plus worked examples over a two-label map.

In four places the code behaves differently from what its comments and types suggest, and the model follows the code:

- **Missing index.** The comment at line 62 says a missing index means the labels do not match, and the code substitutes the placeholder `"Unknown"`, evidently meant to come back as an `"Unknown"` prediction.
  But the code (lines 58-65) then decodes that placeholder. `"Unknown"` has neither prefix, so `fruit_name` is never assigned and line 34 raises `UnboundLocalError`.
  `UnknownFallbackRaises` states this.
- **Species text.** The comment at line 24 calls the result the name component of a label such as `freshApple`, that is, the text after the prefix.
  The code keeps what follows the *last* occurrence of the prefix word, and it accepts an empty species.
  `EncodeDecode` states exactly when the two agree. `BarePrefixDecodesToEmptySpecies` covers the empty case.
- **Backend faults.** `_predict` is typed `Optional[int]`, and the Keras `try` turns an inference fault into None. The comment at line 112 says construction loads the model once so that load errors show up early.
  Still, Keras catches only faults raised in inference itself. A model that fails to load or an image that fails to normalise raises, and scikit-learn catches nothing.
- **Duplicate labels.** The comment at line 75 calls `labels_swap` a remapping from text back to numbers, which is only an inverse when no label repeats.
  The code accepts duplicates, and the key visited last wins (`InvertedLastWins`).

## Model

| member | source | states |
|---|---|---|
| `Text.LastPieceStart` | backend/fruitrient/app/classification.py:28-32 | The split scan stops at a position after which `sep` never occurs. It stays at its start exactly when `sep` occurs nowhere after it. Otherwise `sep` ends right before it. |
| `Text.SplitLast` | backend/fruitrient/app/classification.py:28-32 | `s.split(sep)[-1]` is a suffix of `s` that does not contain `sep`. It is all of `s` exactly when `sep` does not occur in `s`. Otherwise the text before it ends with `sep`. |
| `Text.SplitLastAfterLeadingSeparator` | backend/fruitrient/app/classification.py:28-32 | When the separator starts the string and does not occur in the rest, splitting keeps the rest. |
| `LabelCodec.ExtractLabelComponents` | backend/fruitrient/app/classification.py:25-34 | Decoding succeeds exactly when the label starts with `fresh` or `rotten`. Otherwise it raises `UnboundLocalError`. The flag is true exactly when the label starts with `fresh`. The species is a suffix of the label that does not contain the prefix word, and the text before it ends with that word, so it starts right after an occurrence of the word. |
| `LabelCodec.PrefixesExclusive` | backend/fruitrient/app/classification.py:26-32 | No label starts with both words, so the two independent `if`s never both fire. |
| `LabelCodec.DecodeEncode` | backend/fruitrient/app/classification.py:25-34 | `"fresh"+s` decodes to `(s, true)` and `"rotten"+s` to `(s, false)` when `s` does not contain that word. |
| `LabelCodec.EncodeDecode` | backend/fruitrient/app/classification.py:25-34 | Re-encoding a decoded label gives the label back exactly when the prefix word does not occur again after the prefix. |
| `LabelCodec.UnknownDoesNotDecode` | backend/fruitrient/app/classification.py:25-34 | The placeholder `"Unknown"` raises `UnboundLocalError` when decoded. |
| `LabelCodec.BarePrefixDecodesToEmptySpecies` | backend/fruitrient/app/classification.py:27-32 | `fresh` and `rotten` alone decode to an empty species. |
| `ClassifierProperties.PredictedIndexOutcome` | backend/fruitrient/app/classification.py:58-67 | A predicted index yields the decoded label when the map holds it and that label carries a prefix. Every other index, whether missing or carrying an undecodable label, makes `classify` raise `UnboundLocalError`. |
| `Classification.AfterPredict` | backend/fruitrient/app/classification.py:52-67 | `classify` returns None exactly when `_predict` returns None, and a raise propagates. For a predicted index it succeeds exactly when the label looked up for it, or `"Unknown"`, decodes, and otherwise raises `UnboundLocalError`. A returned prediction comes from an index the map holds. Its flag is whether that label starts with `fresh`, and its name is a suffix of that label. |
| `Classification.Inverted` | backend/fruitrient/app/classification.py:76-78 | Every label of a visited key has an entry in `labels_swap`. Every entry maps back to a visited key that carries that label. |
| `Classification.Remap` | backend/fruitrient/app/classification.py:80 | The comprehension succeeds exactly when every label has an entry. It keeps length and order and maps pair `j` to `(swap[label_j], image_j)`. A failure is a `KeyError` for a label that has no entry. |
| `ClassifierProperties.TargetsAgainstLabels` | backend/fruitrient/app/classification.py:143 | `Y_train` has one index per sample, in batch order, and each is a key of the map whose label is that sample's label. |
| `Classification.Classifier.constructor` | backend/fruitrient/app/classification.py:44-48 | The base classifier stores the label map, its order and the geometry unchanged. |
| `Classification.Classifier.Random` | backend/fruitrient/app/classification.py:91-92 | The random classifier keeps the labels and uses mode `"L"` with size 0 by 0. |
| `Classification.Classifier.SciKit` | backend/fruitrient/app/classification.py:163-165 | The scikit-learn classifier stores the estimator, the labels and the geometry. |
| `Classification.Classifier.Keras` | backend/fruitrient/app/classification.py:109-111 | The Keras classifier stores the h5 bytes, the labels and the geometry. |
| `Classification.Classifier.LoadKeras` | backend/fruitrient/app/classification.py:105-113 | Construction succeeds exactly when the h5 bytes load, and yields a fresh object with the given metadata. Otherwise it raises. |
| `Classification.Classifier.FixImage` | backend/fruitrient/app/classification.py:116-117 | Normalising an image is the library's resize to `(image_x, image_y)` followed by conversion to `image_type`, with nothing else of the classifier involved. |
| `Classification.Classifier.FixAll` | backend/fruitrient/app/classification.py:142 | Every training image is normalised by the same `_fix_image` as prediction, in order. The whole batch fails if one image does. |
| `Classification.Classifier.KerasPredict` | backend/fruitrient/app/classification.py:119-134 | It raises exactly when the model fails to load or the image fails to normalise. Otherwise it returns the arg-max index of the normalised image, or None when inference raises. |
| `Classification.Classifier.SciKitPredict` | backend/fruitrient/app/classification.py:167-173 | It never returns None. It raises exactly when normalising or the estimator raises. Otherwise it returns the estimator's prediction on the flattened pixels. |
| `Classification.Classifier.PredictRaw` | backend/fruitrient/app/classification.py:69-96 | The base class fails its assertion. The random backend returns an index in `[0, len(labels))`, or raises `ValueError` on an empty map. Keras and scikit-learn follow their predict functions. |
| `Classification.Classifier.Classify` | backend/fruitrient/app/classification.py:50-67 | The result is `AfterPredict` applied to a permitted `_predict` outcome. For the base class it is the failed assertion. For the random backend it is `ValueError` on an empty map and never None. For Keras and scikit-learn it is the lookup and decode of that backend's prediction. |
| `Classification.Classifier.InvertLabels` | backend/fruitrient/app/classification.py:76-78 | The loop over `labels.items()` in insertion order builds exactly `Inverted(labels, order)`. |
| `Classification.Classifier.KerasRetrainPayload` | backend/fruitrient/app/classification.py:138-150 | A new payload exists only if the model loads and every image normalises. When both happen, the payload is exactly what fitting on the normalised images and `Y_train` and saving produce, or None if that raises. |
| `Classification.Classifier.RetrainBackend` | backend/fruitrient/app/classification.py:136-156 | Base and random fail `assert False`, and scikit-learn fails with its own message. Keras returns a fresh classifier over the new payload with the same labels and geometry, or None when any step raises. |
| `Classification.Classifier.Retrain` | backend/fruitrient/app/classification.py:73-82 | A label missing from the map raises `KeyError` before `_retrain` runs. Otherwise the result is the backend's retrain of the remapped batch. |
| `ClassifierProperties.InvertedDomain` | backend/fruitrient/app/classification.py:76-78 | `labels_swap` has an entry exactly for the labels the map holds. |
| `ClassifierProperties.InvertedLastWins` | backend/fruitrient/app/classification.py:76-78 | For a repeated label, the key visited last wins. |
| `ClassifierProperties.InvertedOfInjective` | backend/fruitrient/app/classification.py:76-78 | For an injective map, `labels_swap[labels[k]] == k` for every key. |
| `ClassifierProperties.RemapAgainstLabels` | backend/fruitrient/app/classification.py:76-80 | Remapping succeeds exactly when every label is in the map. It keeps length, order and images, and `labels[mapped[j][0]] == images[j][0]`. For an injective map that index is the only one. |
| `ClassifierProperties.RemapReportsFirstMissing` | backend/fruitrient/app/classification.py:80 | The `KeyError` names the first label of the batch that the map lacks. |
| `ClassifierProperties.RetrainedKerasNormalisesAlike` | backend/fruitrient/app/classification.py:153 | A Keras classifier returned by retraining normalises every image exactly as the one it came from. |
| `ClassifierProperties.PredictedIndexDecodes` | backend/fruitrient/app/classification.py:58-67 | An index in the map whose label decodes gives exactly that decoded prediction. |
| `ClassifierProperties.UnknownFallbackRaises` | backend/fruitrient/app/classification.py:58-65 | An index missing from the map makes `classify` raise `UnboundLocalError`. It never returns an `"Unknown"` prediction. |
| `ClassifierProperties.ClassifyRecoversTrainingLabel` | backend/fruitrient/app/classification.py:58-80 | When every training label is in the map, remapping succeeds. Predicting the index a sample was remapped to then makes `classify` report that sample's decoded label. |
| `ClassifierProperties.RandomDrawIsLabel` | backend/fruitrient/app/classification.py:94-96 | With indices `0..n-1`, every random draw is a key of the map, so `classify` never takes the fallback. |
| `ClassifierProperties.FreshAppleScenario` | backend/fruitrient/app/classification.py:58-67 | With `{0: "freshApple", 1: "rottenApple"}`, index 0 gives `("Apple", true)`. |
| `ClassifierProperties.RottenAppleScenario` | backend/fruitrient/app/classification.py:58-67 | With the same map, index 1 gives `("Apple", false)`. |
| `ClassifierProperties.BananaScenario` | backend/fruitrient/app/classification.py:76-80 | Retraining on `[("freshApple", _), ("rottenBanana", _)]` against that map raises `KeyError("rottenBanana")`. |

## Left out

- `backend/fruitrient/app/handlers.py` as a whole is not part of this model.
  It covers HTTP handling, multipart form parsing, the nutrition proxy and the persistence calls into `.models`.
  `.models` is not part of this model either, so the artifact registry and the active-classifier history have nothing to stand on.
- Uploaded artifacts are deserialised with pickle, falling back to joblib. These are foreign library calls.
  The two-argument `SciKitClassifier(pyobj, labels)` call in the upload handler is left out with it.
- The numerical work of Keras, numpy, h5py, PIL and scikit-learn is reduced to the `Runtime` oracle: loading, resize and convert, predict with arg-max, fit for 5 epochs and save, and estimator predict.
  No property depends on what these compute.
- `np.asarray(..., dtype=np.int32).flatten()` becomes the image's `pixels`. The 32-bit cast is not modelled, because pixel values fit in 32 bits.
- Classification.Classifier.PredictRaw: the random draw is any index in `[0, len(labels))`. Uniformity is not stated, because Dafny has no probabilities.
- Logging is left out.
- Assertions are taken to be enabled. Under `python -O`, the `assert False` bodies would return None instead.
- `except Exception` does not catch a `BaseException` such as `KeyboardInterrupt`. The model has no such exceptions.
- Label-map keys are integers. Keys that come from JSON as strings would never match a predicted index. The map that the upload handler stores is not part of this model.
- Concurrency: all operations are sequential, and the classifier objects are immutable.
