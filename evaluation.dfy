/** The arithmetic of calculateBMI: the conversion of the height to metres, the guard
    that rejects unusable input, and the formula weight / height². Numbers are exact reals;
    `None` stands for the NaN that parseFloat returns for text that is not a number. */
module Evaluation {
  import opened Wrappers
  import opened Classification

  /** parseFloat(height) / 100: a height in centimetres as metres; NaN stays NaN. */
  function CentimetresToMetres(cm: Option<real>): (m: Option<real>)
    ensures m.Some? <==> cm.Some?
    ensures m.Some? ==> 100.0 * m.value == cm.value
  {
    match cm
    case None => None
    case Some(c) => Some(c / 100.0)
  }

  /** height * height. */
  function Square(x: real): (s: real)
    ensures s >= 0.0
  {
    x * x
  }

  /** weight / (height * height), for the positive heights the guard lets through. */
  function BmiOf(weightKg: real, heightM: real): (bmi: real)
    requires heightM > 0.0
    ensures bmi * Square(heightM) == weightKg
  {
    SquarePositive(heightM);
    weightKg / Square(heightM)
  }

  /** The BMI value calculateBMI stores for the parsed weight (kg) and height (cm),
      or None when the guard returns early: a NaN weight, a NaN height or a height <= 0.
      The weight itself is not range-checked. */
  function Evaluate(weightKg: Option<real>, heightCm: Option<real>): (bmi: Option<real>)
    ensures bmi.None? <==> weightKg.None? || heightCm.None? || heightCm.value <= 0.0
    ensures bmi.Some? ==> bmi.value * Square(heightCm.value) == 10000.0 * weightKg.value
  {
    var heightM := CentimetresToMetres(heightCm);
    if weightKg.None? || heightM.None? || heightM.value <= 0.0 then None
    else
      SquareScale(heightM.value);
      Some(BmiOf(weightKg.value, heightM.value))
  }

  /** For accepted input the stored value is weight / (height in metres)², which is
      10000 * weight / (height in centimetres)². */
  lemma EvaluateFormula(weightKg: real, heightCm: real)
    requires heightCm > 0.0
    ensures Square(heightCm / 100.0) > 0.0 && Evaluate(Some(weightKg), Some(heightCm)) == Some(weightKg / Square(heightCm / 100.0))
    ensures Square(heightCm) > 0.0 && Evaluate(Some(weightKg), Some(heightCm)) == Some(10000.0 * weightKg / Square(heightCm))
  {
    SquarePositive(heightCm / 100.0);
    SquarePositive(heightCm);
    var bmi := Evaluate(Some(weightKg), Some(heightCm)).value;
    ProductCancel(bmi, 10000.0 * weightKg / Square(heightCm), Square(heightCm));
  }

  /** A zero or negative weight is accepted, gives a BMI that is not positive, and is
      classified 'Bajo peso'. */
  lemma NonPositiveWeightAccepted(weightKg: real, heightCm: real)
    requires weightKg <= 0.0 && heightCm > 0.0
    ensures Evaluate(Some(weightKg), Some(heightCm)).Some?
    ensures Evaluate(Some(weightKg), Some(heightCm)).value <= 0.0
    ensures Classify(Evaluate(Some(weightKg), Some(heightCm)).value) == BajoPeso
  {
    SquarePositive(heightCm);
    var bmi := Evaluate(Some(weightKg), Some(heightCm)).value;
    ProductOrder(bmi, 0.0, Square(heightCm));
  }

  /** At the same height, a heavier weight never gives a lower BMI nor an earlier band. */
  lemma HeavierNeverLowerBand(w1: real, w2: real, heightCm: real)
    requires w1 <= w2 && heightCm > 0.0
    ensures Evaluate(Some(w1), Some(heightCm)).value <= Evaluate(Some(w2), Some(heightCm)).value
    ensures BandIndex(Evaluate(Some(w1), Some(heightCm)).value) <= BandIndex(Evaluate(Some(w2), Some(heightCm)).value)
  {
    SquarePositive(heightCm);
    var b1, b2 := Evaluate(Some(w1), Some(heightCm)).value, Evaluate(Some(w2), Some(heightCm)).value;
    ProductOrder(b1, b2, Square(heightCm));
    ClassifyMonotone(b1, b2);
  }

  /** For a non-negative weight, a taller height never gives a higher BMI. */
  lemma TallerNeverHigherBmi(weightKg: real, h1: real, h2: real)
    requires weightKg >= 0.0 && 0.0 < h1 <= h2
    ensures Evaluate(Some(weightKg), Some(h2)).value <= Evaluate(Some(weightKg), Some(h1)).value
  {
    SquarePositive(h1);
    SquarePositive(h2);
    SquareMonotone(h1, h2);
    var b1, b2 := Evaluate(Some(weightKg), Some(h1)).value, Evaluate(Some(weightKg), Some(h2)).value;
    QuotientAntitone(b1, b2, Square(h1), Square(h2), 10000.0 * weightKg);
  }

  // Facts of real arithmetic that the solver does not find by itself.

  lemma SquarePositive(h: real)
    requires h > 0.0
    ensures Square(h) > 0.0
  {
    calc {
      Square(h);
    ==
      h * h;
    >
      0.0;
    }
  }

  lemma SquareMonotone(h1: real, h2: real)
    requires 0.0 < h1 <= h2
    ensures Square(h1) <= Square(h2)
  {
    var d := h2 - h1;
    assert Square(h2) == Square(h1) + d * (h1 + h2);
    assert d * (h1 + h2) >= 0.0;
  }

  lemma SquareScale(h: real)
    ensures Square(h) * 10000.0 == Square(100.0 * h)
  {
  }

  /** Dividing a non-negative amount by a larger divisor gives no more. */
  lemma QuotientAntitone(q1: real, q2: real, d1: real, d2: real, n: real)
    requires 0.0 < d1 <= d2 && n >= 0.0
    requires q1 * d1 == n && q2 * d2 == n
    ensures q2 <= q1
  {
  }

  /** A positive factor preserves order. */
  lemma ProductOrder(x: real, y: real, c: real)
    requires c > 0.0
    ensures x * c <= y * c <==> x <= y
  {
  }

  lemma ProductCancel(x: real, y: real, c: real)
    requires c != 0.0 && x * c == y * c
    ensures x == y
  {
  }

  /** Worked examples, one per band: 50 kg at 180 cm, and 65, 80, 95, 115 and 130 kg at 170 cm. */
  lemma WorkedExamples()
    ensures Evaluate(Some(50.0), Some(180.0)) == Some(50.0 / 3.24)
    ensures Classify(50.0 / 3.24) == BajoPeso
    ensures Evaluate(Some(65.0), Some(170.0)) == Some(65.0 / 2.89)
    ensures Classify(65.0 / 2.89) == PesoNormal
    ensures Evaluate(Some(80.0), Some(170.0)) == Some(80.0 / 2.89)
    ensures Classify(80.0 / 2.89) == Sobrepeso
    ensures Evaluate(Some(95.0), Some(170.0)) == Some(95.0 / 2.89)
    ensures Classify(95.0 / 2.89) == ObesidadI
    ensures Evaluate(Some(115.0), Some(170.0)) == Some(115.0 / 2.89)
    ensures Classify(115.0 / 2.89) == ObesidadII
    ensures Evaluate(Some(130.0), Some(170.0)) == Some(130.0 / 2.89)
    ensures Classify(130.0 / 2.89) == ObesidadIII
  {
  }

  /** An empty weight field (NaN) or a height of 0 produces no result. */
  lemma RejectedExamples(heightCm: Option<real>, weightKg: Option<real>)
    ensures Evaluate(None, heightCm) == None
    ensures Evaluate(weightKg, Some(0.0)) == None
  {
  }
}
