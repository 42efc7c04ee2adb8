/**
 * Properties of the classifier contract that relate several operations:
 * the inverse label map, the remapping of a training batch, the outcome of
 * `classify`, and worked examples over a two-label map.
 */
module ClassifierProperties {
  import opened Outcomes
  import opened Text
  import opened LabelCodec
  import opened Classification

  // ---------------------------------------------------------------------------
  // The inverse label map
  // ---------------------------------------------------------------------------

  /** The inverse map is defined on exactly the labels the map holds. */
  lemma InvertedDomain(labels: map<int, string>, order: seq<int>)
    requires IsInsertionOrder(labels, order)
    ensures forall v :: v in Inverted(labels, order) <==> HasLabel(labels, v)
  {
    var swap := Inverted(labels, order);
    forall v | HasLabel(labels, v) ensures v in swap {
      var k :| k in labels && labels[k] == v;
      var i :| 0 <= i < |order| && order[i] == k;
    }
  }

  /** When labels repeat, the key visited last by the loop wins. */
  lemma {:induction false} InvertedLastWins(labels: map<int, string>, order: seq<int>, j: nat)
    requires forall i :: 0 <= i < |order| ==> order[i] in labels
    requires j < |order|
    requires forall i :: j < i < |order| ==> labels[order[i]] != labels[order[j]]
    ensures labels[order[j]] in Inverted(labels, order)
    ensures Inverted(labels, order)[labels[order[j]]] == order[j]
  {
    var n := |order| - 1;
    if j < n {
      var front := order[..n];
      assert forall i :: 0 <= i < n ==> front[i] == order[i];
      InvertedLastWins(labels, front, j);
    }
  }

  /** For an injective map, the inverse takes each label back to its own index. */
  lemma InvertedOfInjective(labels: map<int, string>, order: seq<int>)
    requires IsInsertionOrder(labels, order) && Injective(labels)
    ensures forall k :: k in labels ==> labels[k] in Inverted(labels, order) && Inverted(labels, order)[labels[k]] == k
  {
    forall k | k in labels
      ensures labels[k] in Inverted(labels, order) && Inverted(labels, order)[labels[k]] == k
    {
      var j :| 0 <= j < |order| && order[j] == k;
      forall i | j < i < |order| ensures labels[order[i]] != labels[order[j]] {
        assert order[i] != order[j];
      }
      InvertedLastWins(labels, order, j);
    }
  }

  // ---------------------------------------------------------------------------
  // Remapping a training batch
  // ---------------------------------------------------------------------------

  /**
   * The remapped batch exists exactly when every label is in the map; it
   * keeps length, order and images, and each index carries its sample's
   * label. For an injective map that index is the only one that does.
   */
  lemma RemapAgainstLabels(labels: map<int, string>, order: seq<int>, images: seq<(string, Image)>)
    requires IsInsertionOrder(labels, order)
    ensures var m := Remap(Inverted(labels, order), images);
      && (m.Returned? <==> forall j :: 0 <= j < |images| ==> HasLabel(labels, images[j].0))
      && (m.Returned? ==>
            && |m.value| == |images|
            && (forall j :: 0 <= j < |images| ==>
                  && m.value[j].1 == images[j].1
                  && m.value[j].0 in labels
                  && labels[m.value[j].0] == images[j].0)
            && (Injective(labels) ==>
                  forall j, k :: 0 <= j < |images| && k in labels && labels[k] == images[j].0 ==> m.value[j].0 == k))
  {
    InvertedDomain(labels, order);
    var swap := Inverted(labels, order);
    var m := Remap(swap, images);
    if m.Returned? {
      forall j | 0 <= j < |images| ensures m.value[j].0 in labels && labels[m.value[j].0] == images[j].0 {
        assert m.value[j].0 == swap[images[j].0];
      }
    }
  }

  /** The `KeyError` names the first label of the batch that the map lacks. */
  lemma {:induction false} RemapReportsFirstMissing(swap: map<string, int>, images: seq<(string, Image)>, j: nat)
    requires j < |images| && images[j].0 !in swap
    requires forall i :: 0 <= i < j ==> images[i].0 in swap
    ensures Remap(swap, images) == Raised(KeyError(images[j].0))
  {
    if j > 0 {
      assert forall i :: 0 <= i < j - 1 ==> images[1..][i] == images[i + 1];
      RemapReportsFirstMissing(swap, images[1..], j - 1);
    }
  }

  // ---------------------------------------------------------------------------
  // Classifying
  // ---------------------------------------------------------------------------

  /**
   * Everything `classify` can make of a predicted index: the decoded label
   * when the index is in the map and its label carries a prefix, and
   * `UnboundLocalError` in every other case, a missing index included.
   */
  lemma PredictedIndexOutcome(labels: map<int, string>, i: int)
    ensures i in labels && ExtractLabelComponents(labels[i]).Returned? ==>
      AfterPredict(labels, Returned(Some(i)))
        == Returned(Some(Prediction(ExtractLabelComponents(labels[i]).value.0, ExtractLabelComponents(labels[i]).value.1)))
    ensures !(i in labels && ExtractLabelComponents(labels[i]).Returned?) ==>
      AfterPredict(labels, Returned(Some(i))) == Raised(UnboundLocalError)
  {
    if i !in labels {
      UnknownFallbackRaises(labels, i);
    }
  }

  /** An index the map holds, whose label carries a prefix, is reported as that label decoded. */
  lemma PredictedIndexDecodes(labels: map<int, string>, i: int)
    requires i in labels && ExtractLabelComponents(labels[i]).Returned?
    ensures AfterPredict(labels, Returned(Some(i)))
      == Returned(Some(Prediction(ExtractLabelComponents(labels[i]).value.0, ExtractLabelComponents(labels[i]).value.1)))
  {
  }

  /**
   * An index the map lacks is replaced by `"Unknown"`, which has no prefix:
   * `classify` raises instead of reporting a prediction.
   */
  lemma UnknownFallbackRaises(labels: map<int, string>, i: int)
    requires i !in labels
    ensures AfterPredict(labels, Returned(Some(i))) == Raised(UnboundLocalError)
  {
    UnknownDoesNotDecode();
  }

  /**
   * `Y_train` of the Keras retrain: one index per sample, in batch order,
   * each an index of the map that carries that sample's label.
   */
  lemma TargetsAgainstLabels(labels: map<int, string>, order: seq<int>, images: seq<(string, Image)>)
    requires IsInsertionOrder(labels, order)
    requires Remap(Inverted(labels, order), images).Returned?
    ensures var ys := Targets(Remap(Inverted(labels, order), images).value);
      && |ys| == |images|
      && forall j :: 0 <= j < |images| ==> ys[j] in labels && labels[ys[j]] == images[j].0
  {
    RemapAgainstLabels(labels, order, images);
  }

  /**
   * A Keras classifier returned by retraining normalises every image exactly
   * as the one it was retrained from: `_retrain` passes on the mode and the
   * geometry that `_fix_image` reads.
   */
  lemma RetrainedKerasNormalisesAlike(c: Classifier, mapped: seq<(int, Image)>, rt: Runtime,
                                      r: Outcome<Option<Classifier>>, image: Image)
    requires c.backend.KerasBackend? && c.RetrainedBy(mapped, rt, r)
    requires r.Returned? && r.value.Some?
    ensures r.value.value.backend.KerasBackend?
    ensures r.value.value.FixImage(image, rt) == c.FixImage(image, rt)
  {
  }

  /**
   * `classify` inverts the remapping of `retrain`: if the backend predicts
   * the index a training sample was remapped to, `classify` reports that
   * sample's own label, decoded.
   */
  lemma ClassifyRecoversTrainingLabel(labels: map<int, string>, order: seq<int>, images: seq<(string, Image)>, j: nat)
    requires IsInsertionOrder(labels, order)
    requires forall i :: 0 <= i < |images| ==> HasLabel(labels, images[i].0)
    requires j < |images| && (StartsWith(images[j].0, FreshWord) || StartsWith(images[j].0, RottenWord))
    ensures Remap(Inverted(labels, order), images).Returned?
    ensures var m := Remap(Inverted(labels, order), images).value;
      var d := ExtractLabelComponents(images[j].0).value;
      j < |m| && AfterPredict(labels, Returned(Some(m[j].0))) == Returned(Some(Prediction(d.0, d.1)))
  {
    RemapAgainstLabels(labels, order, images);
    var m := Remap(Inverted(labels, order), images).value;
    PredictedIndexDecodes(labels, m[j].0);
  }

  /** With indices 0..n-1, the random classifier only draws indices the map holds, so `classify` never takes the fallback. */
  lemma RandomDrawIsLabel(c: Classifier, raw: Outcome<Option<int>>, image: Image, rt: Runtime)
    requires c.backend.RandomBackend? && Contiguous(c.labels) && |c.labels| > 0
    requires c.MayPredict(raw, image, rt)
    ensures raw.Returned? && raw.value.Some? && raw.value.value in c.labels
    ensures AfterPredict(c.labels, raw).Returned? <==> ExtractLabelComponents(c.labels[raw.value.value]).Returned?
  {
  }

  // ---------------------------------------------------------------------------
  // End-to-end scenarios
  // ---------------------------------------------------------------------------

  const AppleLabels: map<int, string> := map[0 := "freshApple", 1 := "rottenApple"]

  /** Neither prefix word occurs in `"Apple"`. */
  lemma AppleHasNoPrefixWord()
    ensures !Contains("Apple", FreshWord) && !Contains("Apple", RottenWord)
  {
    forall i: nat ensures !OccursAt("Apple", FreshWord, i) {
      if i == 0 { assert "Apple"[0] != FreshWord[0]; }
    }
  }

  /** Index 0 of `{0: "freshApple", 1: "rottenApple"}` is a fresh apple. */
  lemma FreshAppleScenario()
    ensures AfterPredict(AppleLabels, Returned(Some(0))) == Returned(Some(Prediction("Apple", true)))
  {
    AppleHasNoPrefixWord();
    DecodeEncode("Apple", true);
    assert EncodeLabel("Apple", true) == AppleLabels[0];
    PredictedIndexDecodes(AppleLabels, 0);
  }

  /** Index 1 of the same map is a rotten apple. */
  lemma RottenAppleScenario()
    ensures AfterPredict(AppleLabels, Returned(Some(1))) == Returned(Some(Prediction("Apple", false)))
  {
    AppleHasNoPrefixWord();
    DecodeEncode("Apple", false);
    assert EncodeLabel("Apple", false) == AppleLabels[1];
    PredictedIndexDecodes(AppleLabels, 1);
  }

  /** Retraining on a batch with `"rottenBanana"` against that map fails on that label. */
  lemma BananaScenario(img1: Image, img2: Image)
    ensures Remap(Inverted(AppleLabels, [0, 1]), [("freshApple", img1), ("rottenBanana", img2)])
      == Raised(KeyError("rottenBanana"))
  {
    var swap := Inverted(AppleLabels, [0, 1]);
    assert [0, 1][..1] == [0];
    assert [0][..0] == [];
    assert swap == map["freshApple" := 0, "rottenApple" := 1];
    var batch := [("freshApple", img1), ("rottenBanana", img2)];
    assert "rottenBanana" != "rottenApple" by { assert "rottenBanana"[6] != "rottenApple"[6]; }
    RemapReportsFirstMissing(swap, batch, 1);
  }
}
