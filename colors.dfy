/** getCategoryColor: the text colour class the result line is drawn in, looked up from the
    stored category label, with a default for every other string. */
module CategoryColors {
  import opened Classification

  /** The colour classes of the six labels, position by position with Labels. */
  const Colors: seq<string> :=
    ["text-yellow-600", "text-green-600", "text-orange-600", "text-red-500", "text-red-600", "text-red-700"]

  /** The colour of any string that is not one of the six labels, the initial '' included. */
  const DefaultColor := "text-sky-800"

  /** The lookup is total: label k gets colour k, and anything else gets the default. */
  function CategoryColor(category: string): (color: string)
    ensures forall k :: 0 <= k < |Labels| && category == Labels[k] ==> color == Colors[k]
    ensures category !in Labels ==> color == DefaultColor
  {
    if category == BajoPeso then "text-yellow-600"
    else if category == PesoNormal then "text-green-600"
    else if category == Sobrepeso then "text-orange-600"
    else if category == ObesidadI then "text-red-500"
    else if category == ObesidadII then "text-red-600"
    else if category == ObesidadIII then "text-red-700"
    else DefaultColor
  }

  /** The six colours are pairwise distinct and none of them is the default. */
  lemma ColorsDistinct()
    ensures |Colors| == |Labels|
    ensures Distinct(Colors)
    ensures DefaultColor !in Colors
  {
  }

  /** The default colour is returned exactly for strings that are not labels. */
  lemma CategoryColorDefaultIff(category: string)
    ensures CategoryColor(category) == DefaultColor <==> category !in Labels
  {
  }

  /** Two labels drawn in the same colour are the same label. */
  lemma CategoryColorInjective(c1: string, c2: string)
    requires c1 in Labels && c2 in Labels
    requires CategoryColor(c1) == CategoryColor(c2)
    ensures c1 == c2
  {
  }

  /** A classified BMI value is always drawn in its band's own colour, never the default. */
  lemma ClassifiedColor(bmi: real)
    ensures CategoryColor(Classify(bmi)) == Colors[BandIndex(bmi)]
    ensures CategoryColor(Classify(bmi)) != DefaultColor
  {
    ClassifyInBand(bmi);
    ColorsDistinct();
  }
}
