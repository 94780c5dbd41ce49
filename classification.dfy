/** The six-way classification of a BMI value (the if/else-if chain of calculateBMI).

    The chain tests exclusive upper bounds in order and the first test that holds wins,
    so band k is the half-open interval [Thresholds[k-1], Thresholds[k]), with no lower
    bound for the first band and no upper bound for the last.

    The reference-range text that the page shows under the result lists
    "Normal: 18.5 - 24.9", "Sobrepeso: 25 - 29.9" and "Obesidad I: 30 - 34.9". It does not
    agree with this chain: 24.9 and 29.9, listed there as the tops of Normal and Sobrepeso,
    are put by the chain in the next band, and the values strictly between 24.9 and 25 or
    29.9 and 30, which that text leaves out of every range, go to the higher band too.
    The model follows the chain (see DisplayedRangesDisagree). */
module Classification {

  const BajoPeso := "Bajo peso"
  const PesoNormal := "Peso normal"
  const Sobrepeso := "Sobrepeso"
  const ObesidadI := "Obesidad grado I"
  const ObesidadII := "Obesidad grado II"
  const ObesidadIII := "Obesidad grado III"

  /** The labels in the order the chain tests them. */
  const Labels: seq<string> := [BajoPeso, PesoNormal, Sobrepeso, ObesidadI, ObesidadII, ObesidadIII]

  /** The exclusive upper bounds of the first five bands, in the order they are tested. */
  const Thresholds: seq<real> := [18.5, 24.9, 29.9, 35.0, 40.0]

  ghost predicate Ascending(s: seq<real>) {
    forall i, j :: 0 <= i < j < |s| ==> s[i] < s[j]
  }

  ghost predicate Distinct(s: seq<string>) {
    forall i, j :: 0 <= i < j < |s| ==> s[i] != s[j]
  }

  /** Band k as an interval: at or above the (k-1)-th threshold and below the k-th one. */
  ghost predicate InBand(bmi: real, k: nat) {
    k < |Labels| &&
    (k == 0 || Thresholds[k - 1] <= bmi) &&
    (k == |Thresholds| || bmi < Thresholds[k])
  }

  /** The category label calculateBMI stores for a BMI value. */
  function Classify(bmi: real): (category: string)
    ensures category in Labels
  {
    if bmi < 18.5 then BajoPeso
    else if bmi < 24.9 then PesoNormal
    else if bmi < 29.9 then Sobrepeso
    else if bmi < 35.0 then ObesidadI
    else if bmi < 40.0 then ObesidadII
    else ObesidadIII
  }

  /** How many of the bounds lie at or below b. */
  function CountAtOrBelow(bounds: seq<real>, b: real): (n: nat)
    ensures n <= |bounds|
  {
    if bounds == [] then 0
    else (if bounds[0] <= b then 1 else 0) + CountAtOrBelow(bounds[1..], b)
  }

  /** The position of a BMI value's band, counted independently of the chain:
      the number of thresholds it has reached. */
  function BandIndex(bmi: real): (k: nat)
    ensures k < |Labels|
  {
    CountAtOrBelow(Thresholds, bmi)
  }

  lemma ThresholdsAscending()
    ensures Ascending(Thresholds)
  {
  }

  lemma LabelsDistinct()
    ensures Distinct(Labels)
  {
  }

  /** In an ascending sequence, the bounds at or below b form a prefix. */
  lemma {:induction false} CountSplits(bounds: seq<real>, b: real)
    requires Ascending(bounds)
    ensures forall i :: 0 <= i < CountAtOrBelow(bounds, b) ==> bounds[i] <= b
    ensures forall i :: CountAtOrBelow(bounds, b) <= i < |bounds| ==> b < bounds[i]
  {
    if bounds != [] {
      var tail := bounds[1..];
      assert Ascending(tail) by {
        forall i, j | 0 <= i < j < |tail| ensures tail[i] < tail[j] {
          assert tail[i] == bounds[i + 1] && tail[j] == bounds[j + 1];
        }
      }
      CountSplits(tail, b);
      assert b < bounds[0] ==> CountAtOrBelow(tail, b) == 0;
      forall i | 0 <= i < CountAtOrBelow(bounds, b) ensures bounds[i] <= b {
        if i > 0 { assert bounds[i] == tail[i - 1]; }
      }
      forall i | CountAtOrBelow(bounds, b) <= i < |bounds| ensures b < bounds[i] {
        if i > 0 { assert bounds[i] == tail[i - 1]; }
      }
    }
  }

  /** Counting reached bounds is monotone in the value. */
  lemma {:induction false} CountMonotone(bounds: seq<real>, b1: real, b2: real)
    requires b1 <= b2
    ensures CountAtOrBelow(bounds, b1) <= CountAtOrBelow(bounds, b2)
  {
    if bounds != [] {
      CountMonotone(bounds[1..], b1, b2);
    }
  }

  /** A BMI value lies in exactly the band BandIndex names, and the chain returns that band's label. */
  lemma ClassifyInBand(bmi: real)
    ensures InBand(bmi, BandIndex(bmi))
    ensures Classify(bmi) == Labels[BandIndex(bmi)]
  {
    ThresholdsAscending();
    CountSplits(Thresholds, bmi);
  }

  /** The bands are half-open: Classify returns label k exactly when the value is in interval k. */
  lemma ClassifyBands(bmi: real, k: nat)
    requires k < |Labels|
    ensures Classify(bmi) == Labels[k] <==> InBand(bmi, k)
  {
  }

  /** A larger BMI never falls in an earlier band. */
  lemma ClassifyMonotone(b1: real, b2: real)
    requires b1 <= b2
    ensures BandIndex(b1) <= BandIndex(b2)
    ensures Classify(b1) == Labels[BandIndex(b1)] && Classify(b2) == Labels[BandIndex(b2)]
  {
    CountMonotone(Thresholds, b1, b2);
    ClassifyInBand(b1);
    ClassifyInBand(b2);
  }

  /** Every one of the six labels is the classification of some value. */
  lemma ClassifyOnto(k: nat)
    requires k < |Labels|
    ensures exists bmi :: Classify(bmi) == Labels[k]
  {
    var witnesses := [0.0, 20.0, 25.0, 30.0, 37.0, 45.0];
    assert Classify(witnesses[k]) == Labels[k];
  }

  /** 24.9 and 29.9 close the ranges "Normal: 18.5 - 24.9" and "Sobrepeso: 25 - 29.9" shown on
      the page, yet the chain classifies them 'Sobrepeso' and 'Obesidad grado I'. 24.95 and
      29.95 fall between the shown ranges and go to the higher band as well. */
  lemma DisplayedRangesDisagree()
    ensures Classify(24.9) == Sobrepeso && Classify(29.9) == ObesidadI
    ensures Classify(24.95) == Sobrepeso && Classify(29.95) == ObesidadI
  {
  }
}
