/**
  The applicant record built from the sidebar form: the plausibility check on
  age and years employed, the category codes, the derived loan-to-income
  ratio, and the eight-entry feature vector in training order.
 */
module Applicant {
  import opened Wrappers
  import opened DictTable
  import opened Categories

  /** The youngest age at which the app assumes anyone starts working. */
  const MinWorkingAge := 15

  /** The raw values of the sidebar widgets. */
  datatype Form = Form(
    age: int,
    income: int,
    empLength: int,
    loanAmnt: int,
    homeOwnership: string,
    loanIntent: string,
    loanGrade: string)

  /** Each select box returns one of the labels it offers. */
  predicate SelectionsOffered(f: Form)
  {
    && f.homeOwnership in Labels(Home)
    && f.loanIntent in Labels(Intent)
    && f.loanGrade in Labels(Grade)
  }

  /** The minimum and maximum of the four number inputs. */
  predicate WithinWidgetBounds(f: Form)
  {
    && 18 <= f.age <= 100
    && 1000 <= f.income <= 10_000_000
    && 0 <= f.empLength <= 60
    && 500 <= f.loanAmnt <= 500_000
  }

  /** The `data` dict returned by `user_input_features`. */
  datatype ApplicantData = ApplicantData(
    personAge: int,
    personIncome: int,
    personEmpLength: int,
    personHomeOwnership: int,
    loanAmnt: int,
    loanGrade: int,
    loanIntent: int,
    loanPercentIncome: real)

  /** The result of `user_input_features`, with the values the sidebar error names. */
  datatype Input = Input(data: ApplicantData, isValid: bool, sidebarError: Option<(int, int)>)

  /**
    `is_valid_input`: the flag is cleared when the years employed exceed
    age - 15, that is, when the applicant would have started work, at age
    `age - empLength`, before turning 15.
   */
  function IsValidInput(age: int, empLength: int): (valid: bool)
    ensures valid <==> age - empLength >= MinWorkingAge
  {
    !(empLength > age - MinWorkingAge)
  }

  /** `loan_percent_income`, guarded against a non-positive income. */
  function LoanPercentIncome(loanAmnt: int, income: int): (ratio: real)
    ensures income > 0 ==> ratio * income as real == loanAmnt as real
    ensures income <= 0 ==> ratio == 0.0
  {
    if income > 0 then loanAmnt as real / income as real else 0.0
  }

  /** `user_input_features`: the record and its validity verdict. */
  function UserInputFeatures(f: Form): (r: Input)
    requires SelectionsOffered(f)
    ensures r.isValid <==> f.empLength <= f.age - MinWorkingAge
    ensures r.sidebarError == if r.isValid then None else Some((f.age, f.empLength))
    ensures r.data.personAge == f.age && r.data.personIncome == f.income
    ensures r.data.personEmpLength == f.empLength && r.data.loanAmnt == f.loanAmnt
    ensures Text(Home, r.data.personHomeOwnership) == Some(f.homeOwnership)
    ensures Text(Intent, r.data.loanIntent) == Some(f.loanIntent)
    ensures Text(Grade, r.data.loanGrade) == Some(f.loanGrade)
    ensures r.data.loanPercentIncome == LoanPercentIncome(f.loanAmnt, f.income)
  {
    var valid := IsValidInput(f.age, f.empLength);
    var data := ApplicantData(
      f.age, f.income, f.empLength,
      Code(Home, f.homeOwnership),
      f.loanAmnt,
      Code(Grade, f.loanGrade),
      Code(Intent, f.loanIntent),
      LoanPercentIncome(f.loanAmnt, f.income));
    Input(data, valid, if valid then None else Some((f.age, f.empLength)))
  }

  /** The named entries of the record, i.e. the keys of the `data` dict. */
  datatype Feature =
    | Age | Income | EmpLength | HomeCode
    | Amount | GradeCode | IntentCode | PercentIncome

  /** The order in which the classifiers were trained on the features. */
  const TrainingOrder: seq<Feature> :=
    [Age, Income, EmpLength, HomeCode, Amount, GradeCode, IntentCode, PercentIncome]

  /** `input_data[name]`, as the number the model receives. */
  function Value(d: ApplicantData, name: Feature): real
  {
    match name
    case Age => d.personAge as real
    case Income => d.personIncome as real
    case EmpLength => d.personEmpLength as real
    case HomeCode => d.personHomeOwnership as real
    case Amount => d.loanAmnt as real
    case GradeCode => d.loanGrade as real
    case IntentCode => d.loanIntent as real
    case PercentIncome => d.loanPercentIncome
  }

  /** Every feature appears in the training order exactly once. */
  lemma TrainingOrderIsPermutation()
    ensures |TrainingOrder| == 8
    ensures forall name: Feature :: name in TrainingOrder
    ensures forall i, j :: 0 <= i < j < |TrainingOrder| ==> TrainingOrder[i] != TrainingOrder[j]
  {
    forall name: Feature ensures name in TrainingOrder {
      match name
      case Age => assert TrainingOrder[0] == name;
      case Income => assert TrainingOrder[1] == name;
      case EmpLength => assert TrainingOrder[2] == name;
      case HomeCode => assert TrainingOrder[3] == name;
      case Amount => assert TrainingOrder[4] == name;
      case GradeCode => assert TrainingOrder[5] == name;
      case IntentCode => assert TrainingOrder[6] == name;
      case PercentIncome => assert TrainingOrder[7] == name;
    }
  }

  /** `final_features`: the record read out in training order. */
  function FinalFeatures(d: ApplicantData): (v: seq<real>)
    ensures |v| == |TrainingOrder|
    ensures forall i :: 0 <= i < |v| ==> v[i] == Value(d, TrainingOrder[i])
  {
    [d.personAge as real, d.personIncome as real, d.personEmpLength as real,
     d.personHomeOwnership as real, d.loanAmnt as real, d.loanGrade as real,
     d.loanIntent as real, d.loanPercentIncome]
  }

  /** Validity is kept by an older applicant or a shorter employment. */
  lemma ValidityMonotone(age: int, empLength: int, age': int, empLength': int)
    requires IsValidInput(age, empLength)
    requires age <= age' && empLength' <= empLength
    ensures IsValidInput(age', empLength')
  {
  }

  /** The boundary cases: 33 with 18 years and 30 with 15 pass; 20 with 10 and 30 with 16 fail. */
  lemma ValidityExamples()
    ensures IsValidInput(33, 18) && IsValidInput(30, 15)
    ensures !IsValidInput(20, 10) && !IsValidInput(30, 16)
  {
  }

  /** Within the widget bounds the guard never fires and the ratio lies in [1/20000, 500]. */
  lemma RatioWithinWidgetBounds(f: Form)
    requires WithinWidgetBounds(f)
    ensures 0.00005 <= LoanPercentIncome(f.loanAmnt, f.income) <= 500.0
  {
    QuotientBounds(LoanPercentIncome(f.loanAmnt, f.income), f.income as real, f.loanAmnt as real);
  }

  /** A quotient loan / income of the widget ranges lies in [500 / 10^7, 500000 / 1000]. */
  lemma QuotientBounds(r: real, income: real, loan: real)
    requires r * income == loan
    requires 1000.0 <= income <= 10_000_000.0 && 500.0 <= loan <= 500_000.0
    ensures 0.00005 <= r <= 500.0
  {
    assert (r - 0.00005) * income == loan - 0.00005 * income >= 0.0;
    NonNegativeFactor(r - 0.00005, income);
    assert (500.0 - r) * income == 500.0 * income - loan >= 0.0;
    NonNegativeFactor(500.0 - r, income);
  }

  /** A product with a positive factor is non-negative only if the other factor is. */
  lemma NonNegativeFactor(a: real, b: real)
    requires b > 0.0 && a * b >= 0.0
    ensures a >= 0.0
  {
  }

  /** Income 50000 and loan 10000 give 0.2; income 0 gives exactly 0.0. */
  lemma RatioExamples()
    ensures LoanPercentIncome(10000, 50000) == 0.2
    ensures LoanPercentIncome(10000, 0) == 0.0
  {
  }

  /**
    The worked example: age 25, income 50000, 2 years employed, RENT, loan
    10000, grade A, intent PERSONAL is valid and gives
    [25, 50000, 2, 3, 10000, 0, 4, 0.2].
   */
  lemma WorkedExample()
    ensures var f := Form(25, 50000, 2, 10000, "RENT", "PERSONAL", "A");
            && SelectionsOffered(f)
            && UserInputFeatures(f).isValid
            && FinalFeatures(UserInputFeatures(f).data)
               == [25.0, 50000.0, 2.0, 3.0, 10000.0, 0.0, 4.0, 0.2]
  {
    var f := Form(25, 50000, 2, 10000, "RENT", "PERSONAL", "A");
    assert Labels(Home)[3] == "RENT";
    assert Labels(Intent)[4] == "PERSONAL";
    assert Labels(Grade)[0] == "A";
    CodeAt(Home, 3);
    CodeAt(Intent, 4);
    CodeAt(Grade, 0);
  }

  /** The code of the label at position i of a map is i. */
  lemma CodeAt(d: Dimension, i: int)
    requires 0 <= i < |Labels(d)|
    ensures Labels(d)[i] in Labels(d) && Code(d, Labels(d)[i]) == i
  {
    OptionsWellFormed(d);
    GetAt(Options(d), i);
  }
}
