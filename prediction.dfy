/**
  The prediction section of the page: the gate in front of the button, the
  routing to the chosen classifier, the status label and the risk band.
  The scaler and the two classifiers are opaque functions; every call the
  page makes to them is recorded, in order, so that what is called and when
  can be stated.
 */
module Prediction {
  import opened Wrappers
  import opened Categories
  import opened Applicant

  /** The two entries of the model select box. */
  const XgbChoice := "XGBoost (Recommended)"
  const RfChoice := "RANDOM FOREST"

  datatype Classifier = XGBoost | RandomForest

  /**
    A fitted classifier, applied to one scaled row: `predict(...)[0]` and
    `predict_proba(...)[0]` as the pair of class probabilities.
   */
  datatype Model = Model(predict: seq<real> -> int, predictProba: seq<real> -> (real, real))

  /** The fitted scaler: `scaler.transform` on one row. */
  datatype Scaler = Scaler(transform: seq<real> -> seq<real>)

  /** The loaded artifacts; None stands for a handle that is `None`. */
  datatype Bundle = Bundle(xgb: Option<Model>, rf: Option<Model>, scaler: Option<Scaler>)

  /** One call into the artifacts, with the row it was given. */
  datatype Call =
    | Transform(row: seq<real>)
    | Predict(model: Classifier, row: seq<real>)
    | PredictProba(model: Classifier, row: seq<real>)

  /** Which branch of the prediction section runs. */
  datatype Gate = ShowWarning | AwaitPress | ModelNotLoaded | RunModel(model: Classifier)

  datatype Status = Lancar | BerisikoGagalBayar

  datatype RiskBand = RisikoRendah | RisikoTinggi

  /** Probabilities of default above this are high risk. */
  const RiskThreshold := 0.5

  /** What the prediction section shows. */
  datatype Outcome =
    | Warning                 // the correction warning, no button
    | Idle                    // the button, not pressed
    | ModelUnavailable        // "Model belum dimuat"
    | ScoringFailed           // the chosen random forest handle is None
    | Halted                  // a summary lookup raised, nothing below it runs
    | Scored(model: Classifier, status: Status, pDefault: real, band: RiskBand)

  /** The classifier named by the select box: XGBoost for its label, the random forest otherwise. */
  function ChosenClassifier(choice: string): (c: Classifier)
    ensures c == XGBoost <==> choice == XgbChoice
    ensures choice == RfChoice ==> c == RandomForest
  {
    if choice == XgbChoice then XGBoost else RandomForest
  }

  /** The nested `if is_valid` / `if st.button` / `if model_xgb ... and scaler ...` gate. */
  function Decide(valid: bool, pressed: bool, xgbLoaded: bool, scalerLoaded: bool,
                  choice: string): (g: Gate)
    ensures g == ShowWarning <==> !valid
    ensures g == AwaitPress <==> valid && !pressed
    ensures g == ModelNotLoaded <==> valid && pressed && !(xgbLoaded && scalerLoaded)
    ensures g.RunModel? <==> valid && pressed && xgbLoaded && scalerLoaded
    ensures g.RunModel? ==> g.model == ChosenClassifier(choice)
  {
    if !valid then ShowWarning
    else if !pressed then AwaitPress
    else if xgbLoaded && scalerLoaded then RunModel(ChosenClassifier(choice))
    else ModelNotLoaded
  }

  /** The status shown for a predicted class. */
  function StatusOf(prediction: int): (s: Status)
    ensures s == Lancar <==> prediction == 0
  {
    if prediction == 0 then Lancar else BerisikoGagalBayar
  }

  /** The label on the probability bar. */
  function BandOf(pDefault: real): (b: RiskBand)
    ensures b == RisikoTinggi <==> pDefault > RiskThreshold
  {
    if pDefault > RiskThreshold then RisikoTinggi else RisikoRendah
  }

  /** The result of scoring, with the calls it made in order. */
  datatype Scoring = Scoring(outcome: Outcome, calls: seq<Call>)

  /**
    Scale the feature row, then ask the chosen classifier for its class and
    its probabilities, both on the scaled row.
   */
  function Score(features: seq<real>, b: Bundle, which: Classifier): (s: Scoring)
    requires b.xgb.Some? && b.scaler.Some?
    ensures |s.calls| >= 1 && s.calls[0] == Transform(features)
    ensures forall i :: 1 <= i < |s.calls| ==>
              !s.calls[i].Transform? && s.calls[i].model == which
              && s.calls[i].row == b.scaler.value.transform(features)
    ensures s.outcome.Scored? <==> which == XGBoost || b.rf.Some?
    ensures !s.outcome.Scored? ==> s.outcome == ScoringFailed && |s.calls| == 1
    ensures s.outcome.Scored? ==>
              var scaled := b.scaler.value.transform(features);
              var m := if which == XGBoost then b.xgb.value else b.rf.value;
              && s.outcome.model == which
              && s.calls[1..] == [Predict(which, scaled), PredictProba(which, scaled)]
              && (s.outcome.status == Lancar <==> m.predict(scaled) == 0)
              && s.outcome.pDefault == m.predictProba(scaled).1
              && (s.outcome.band == RisikoTinggi <==> s.outcome.pDefault > RiskThreshold)
  {
    var scaled := b.scaler.value.transform(features);
    var model := if which == XGBoost then b.xgb else b.rf;
    match model
    case None => Scoring(ScoringFailed, [Transform(features)])
    case Some(m) =>
      var prediction := m.predict(scaled);
      var pDefault := m.predictProba(scaled).1;
      Scoring(
        Scored(which, StatusOf(prediction), pDefault, BandOf(pDefault)),
        [Transform(features), Predict(which, scaled), PredictProba(which, scaled)])
  }

  /** The three labels shown in the input summary. */
  datatype Summary = Summary(home: string, grade: string, intent: string)

  /** The reverse lookups of the summary, in page order; None when one of them raises. */
  function Summarize(d: ApplicantData): (r: Option<Summary>)
    ensures r.Some? <==> Text(Home, d.personHomeOwnership).Some?
                         && Text(Grade, d.loanGrade).Some? && Text(Intent, d.loanIntent).Some?
    ensures r.Some? ==> r.value == Summary(Text(Home, d.personHomeOwnership).value,
                                           Text(Grade, d.loanGrade).value,
                                           Text(Intent, d.loanIntent).value)
  {
    match Text(Home, d.personHomeOwnership)
    case None => None
    case Some(home) =>
      match Text(Grade, d.loanGrade)
      case None => None
      case Some(grade) =>
        match Text(Intent, d.loanIntent)
        case None => None
        case Some(intent) => Some(Summary(home, grade, intent))
  }

  /** One run of the page for the current widget values. */
  datatype Page = Page(input: Input, summary: Option<Summary>, outcome: Outcome, calls: seq<Call>)

  /**
    The whole script for one interaction: read the form, show the summary,
    then the prediction section. No artifact is called unless the input is
    valid, the button is pressed and both `model_xgb` and `scaler` are loaded.
   */
  function Run(f: Form, choice: string, pressed: bool, b: Bundle): (p: Page)
    requires SelectionsOffered(f)
    ensures p.input == UserInputFeatures(f)
    ensures p.summary == Some(Summary(f.homeOwnership, f.loanGrade, f.loanIntent))
    ensures p.outcome != Halted
    ensures p.calls != [] <==> p.input.isValid && pressed && b.xgb.Some? && b.scaler.Some?
    ensures !p.input.isValid ==> p.outcome == Warning
    ensures p.input.isValid && !pressed ==> p.outcome == Idle
    ensures p.input.isValid && pressed && !(b.xgb.Some? && b.scaler.Some?) ==>
              p.outcome == ModelUnavailable
    ensures p.calls != [] ==> p.calls[0] == Transform(FinalFeatures(p.input.data))
    ensures forall i :: 1 <= i < |p.calls| ==>
              !p.calls[i].Transform? && p.calls[i].model == ChosenClassifier(choice)
    ensures p.input.isValid && pressed && b.xgb.Some? && b.scaler.Some? ==>
              Scoring(p.outcome, p.calls)
              == Score(FinalFeatures(p.input.data), b, ChosenClassifier(choice))
  {
    var input := UserInputFeatures(f);
    var summary := Summarize(input.data);
    if summary.None? then
      Page(input, summary, Halted, [])
    else
      match Decide(input.isValid, pressed, b.xgb.Some?, b.scaler.Some?, choice)
      case ShowWarning => Page(input, summary, Warning, [])
      case AwaitPress => Page(input, summary, Idle, [])
      case ModelNotLoaded => Page(input, summary, ModelUnavailable, [])
      case RunModel(which) =>
        var s := Score(FinalFeatures(input.data), b, which);
        Page(input, summary, s.outcome, s.calls)
  }

  /**
    Choosing XGBoost sends both calls to it and none to the random forest;
    any other choice sends both to the random forest and none to XGBoost.
   */
  lemma RoutesToChosenOnly(f: Form, choice: string, b: Bundle)
    requires SelectionsOffered(f) && f.empLength <= f.age - MinWorkingAge
    requires b.xgb.Some? && b.scaler.Some?
    requires choice == XgbChoice || b.rf.Some?
    ensures var p := Run(f, choice, true, b);
            var scaled := b.scaler.value.transform(FinalFeatures(p.input.data));
            var which := if choice == XgbChoice then XGBoost else RandomForest;
            && p.calls == [Transform(FinalFeatures(p.input.data)),
                           Predict(which, scaled), PredictProba(which, scaled)]
            && p.outcome.Scored? && p.outcome.model == which
  {
  }

  /** Age 20 with 10 years employed only warns, naming both values, and calls nothing. */
  lemma ImplausibleInputOnlyWarns(choice: string, pressed: bool, b: Bundle)
    ensures var f := Form(20, 50000, 10, 10000, "RENT", "PERSONAL", "A");
            && SelectionsOffered(f)
            && Run(f, choice, pressed, b).outcome == Warning
            && Run(f, choice, pressed, b).input.sidebarError == Some((20, 10))
            && Run(f, choice, pressed, b).calls == []
  {
    assert Labels(Home)[3] == "RENT";
    assert Labels(Intent)[4] == "PERSONAL";
    assert Labels(Grade)[0] == "A";
  }

  /** A higher probability of default never lowers the band; 0.5 itself is low risk. */
  lemma BandMonotone(p: real, q: real)
    requires p <= q
    ensures BandOf(p) == RisikoTinggi ==> BandOf(q) == RisikoTinggi
    ensures BandOf(RiskThreshold) == RisikoRendah
  {
  }
}
