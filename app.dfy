/** The state of the App component: the stored BMI value (null until the first successful
    calculation) and the category label shown beside it. The two text inputs are not fields
    here: calculateBMI only reads them through parseFloat, whose results are the parameters
    of CalculateBmi. */
module App {
  import opened Wrappers
  import opened Classification
  import opened CategoryColors
  import opened Evaluation

  class BmiEvaluator {
    var bmi: Option<real>
    var category: string

    /** The two result fields are set together: before the first result the category is
        the initial '', afterwards it is the classification of the stored value. */
    ghost predicate Valid()
      reads this
    {
      match bmi
      case None => category == ""
      case Some(b) => category == Classify(b)
    }

    /** The initial state: bmi = null, category = ''. */
    constructor ()
      ensures Valid()
      ensures bmi == None && category == ""
    {
      bmi := None;
      category := "";
    }

    /** The Calculate button. `weightKg` and `heightCm` are what parseFloat made of the two
        input fields (None for NaN). On rejected input nothing changes; otherwise both fields
        are overwritten with the new value and its category. */
    method CalculateBmi(weightKg: Option<real>, heightCm: Option<real>)
      requires Valid()
      modifies this
      ensures Valid()
      ensures Evaluate(weightKg, heightCm).None? ==> bmi == old(bmi) && category == old(category)
      ensures Evaluate(weightKg, heightCm).Some? ==>
                bmi == Evaluate(weightKg, heightCm) && category == Classify(bmi.value)
    {
      var weightNum := weightKg;
      var heightNum := CentimetresToMetres(heightCm);
      if weightNum.None? || heightNum.None? || heightNum.value <= 0.0 {
        return;
      }
      var bmiValue := BmiOf(weightNum.value, heightNum.value);
      bmi := Some(bmiValue);
      category := Classify(bmiValue);
    }

    /** The colour class of the category line, which is drawn only once a BMI value is
        stored: always one of the six band colours, never the default. */
    function ResultColor(): (color: string)
      reads this
      requires Valid() && bmi.Some?
      ensures color in Colors && color != DefaultColor
      ensures color == Colors[BandIndex(bmi.value)]
    {
      ClassifiedColor(bmi.value);
      CategoryColor(category)
    }
  }

  /** A session: an invalid click before any result leaves the initial state, a valid click
      stores a result, and a later invalid click keeps it. */
  method Session()
  {
    var app := new BmiEvaluator();
    app.CalculateBmi(None, Some(170.0));
    assert app.bmi == None && app.category == "";
    app.CalculateBmi(Some(65.0), Some(170.0));
    WorkedExamples();
    assert app.bmi == Some(65.0 / 2.89) && app.category == PesoNormal;
    var shown := app.bmi;
    app.CalculateBmi(Some(80.0), Some(0.0));
    assert app.bmi == shown;
  }
}
