/**
 * The compound label format: a freshness word (`fresh` or `rotten`) followed
 * by the species, e.g. `freshApple`. `ExtractLabelComponents` is the decoder
 * the classifier uses; `EncodeLabel` is its inverse, written for the lemmas.
 */
module LabelCodec {
  import opened Outcomes
  import opened Text

  const FreshWord: string := "fresh"
  const RottenWord: string := "rotten"

  /** The prefix word that marks a freshness state. */
  function PrefixWord(isFresh: bool): (w: string)
    ensures w != []
  {
    if isFresh then FreshWord else RottenWord
  }

  /** The label of a species in a freshness state. */
  function EncodeLabel(species: string, isFresh: bool): (encoded: string)
    ensures StartsWith(encoded, PrefixWord(isFresh)) && encoded[|PrefixWord(isFresh)|..] == species
  {
    PrefixWord(isFresh) + species
  }

  /**
   * `extract_label_components`: the species is what `split` leaves after the
   * last occurrence of the prefix word, the flag says whether the label starts
   * with `fresh`. A label with neither prefix never assigns `fruit_name`, so
   * the `return` raises.
   */
  function ExtractLabelComponents(name: string): (r: Outcome<(string, bool)>)
    ensures r.Returned? <==> StartsWith(name, FreshWord) || StartsWith(name, RottenWord)
    ensures r.Raised? ==> r.fault == UnboundLocalError
    ensures r.Returned? ==> (r.value.1 <==> StartsWith(name, FreshWord))
    ensures r.Returned? ==> StartsWith(name, PrefixWord(r.value.1))
    ensures r.Returned? ==> EndsWith(name, r.value.0) && !Contains(r.value.0, PrefixWord(r.value.1))
    ensures r.Returned? ==>
      && |r.value.0| + |PrefixWord(r.value.1)| <= |name|
      && EndsWith(name[..|name| - |r.value.0|], PrefixWord(r.value.1))
  {
    PrefixesExclusive(name);
    assert StartsWith(name, FreshWord) ==> OccursAt(name, FreshWord, 0);
    assert StartsWith(name, RottenWord) ==> OccursAt(name, RottenWord, 0);
    if StartsWith(name, FreshWord) then Returned((SplitLast(name, FreshWord), true))
    else if StartsWith(name, RottenWord) then Returned((SplitLast(name, RottenWord), false))
    else Raised(UnboundLocalError)
  }

  /**
   * No label starts with both words, so the two independent `if`s of the
   * source never both fire and an `if`/`else` chain is the same function.
   */
  lemma PrefixesExclusive(name: string)
    ensures !(StartsWith(name, FreshWord) && StartsWith(name, RottenWord))
  {
    assert StartsWith(name, FreshWord) ==> name[0] == FreshWord[0] == 'f';
    assert StartsWith(name, RottenWord) ==> name[0] == RottenWord[0] == 'r';
  }

  /** Decoding an encoded label gives back species and freshness, provided the species does not repeat the prefix word. */
  lemma {:induction false} DecodeEncode(species: string, isFresh: bool)
    requires !Contains(species, PrefixWord(isFresh))
    ensures ExtractLabelComponents(EncodeLabel(species, isFresh)) == Returned((species, isFresh))
  {
    var name := EncodeLabel(species, isFresh);
    SplitLastAfterLeadingSeparator(PrefixWord(isFresh), species);
    assert name == PrefixWord(isFresh) + species;
    if !isFresh {
      PrefixesExclusive(name);
    }
  }

  /**
   * Re-encoding a decoded label reproduces it exactly when the prefix word
   * occurs only once: `split(...)[-1]` keeps only the text after the last
   * occurrence, so a repeated word is dropped along with the prefix.
   */
  lemma {:induction false} EncodeDecode(name: string, species: string, isFresh: bool)
    requires ExtractLabelComponents(name) == Returned((species, isFresh))
    ensures EncodeLabel(species, isFresh) == name <==> !Contains(name[|PrefixWord(isFresh)|..], PrefixWord(isFresh))
  {
    var w := PrefixWord(isFresh);
    var rest := name[|w|..];
    assert name == w + rest;
    if !Contains(rest, w) {
      SplitLastAfterLeadingSeparator(w, rest);
    }
  }

  /** The placeholder the classifier substitutes for a missing index carries no prefix, so decoding it raises. */
  lemma UnknownDoesNotDecode()
    ensures ExtractLabelComponents("Unknown") == Raised(UnboundLocalError)
  {
    assert "Unknown"[0] == 'U';
    assert !StartsWith("Unknown", FreshWord) by { assert "Unknown"[..5][0] != FreshWord[0]; }
    assert !StartsWith("Unknown", RottenWord) by { assert "Unknown"[..6][0] != RottenWord[0]; }
  }

  /** A bare prefix decodes to an empty species: the source does not reject it. */
  lemma BarePrefixDecodesToEmptySpecies()
    ensures ExtractLabelComponents("fresh") == Returned(("", true))
    ensures ExtractLabelComponents("rotten") == Returned(("", false))
  {
    assert !Contains("", FreshWord) && !Contains("", RottenWord);
    DecodeEncode("", true);
    DecodeEncode("", false);
    assert EncodeLabel("", true) == "fresh";
    assert EncodeLabel("", false) == "rotten";
  }
}
