/** The partial-data handling around the potability prediction (app.py):
    which sidebar parameters the user supplied, how the missing ones are
    imputed with the training means, and which rule-based reason is shown
    when the classifier's prediction is "unsafe". The classifier, the means
    and the widget values are inputs. */
module Potability {

  /** The nine water-quality parameters, declared in sidebar order. */
  datatype Feature =
    | Ph | Hardness | Solids | Chloramines | Sulfate
    | Conductivity | OrganicCarbon | Trihalomethanes | Turbidity

  /** The order in which the sidebar lists and visits the parameters. */
  const ParamOrder: seq<Feature> :=
    [Ph, Hardness, Solids, Chloramines, Sulfate, Conductivity, OrganicCarbon, Trihalomethanes, Turbidity]

  /** A parameter's position in `ParamOrder`. */
  function Index(f: Feature): (i: nat)
    ensures i < |ParamOrder| && ParamOrder[i] == f
  {
    match f
    case Ph => 0
    case Hardness => 1
    case Solids => 2
    case Chloramines => 3
    case Sulfate => 4
    case Conductivity => 5
    case OrganicCarbon => 6
    case Trihalomethanes => 7
    case Turbidity => 8
  }

  /** A slider's label, bounds, default value and step. */
  datatype Slider = Slider(caption: string, min: real, max: real, default: real, step: real)

  function SliderOf(f: Feature): (s: Slider)
    ensures s.min <= s.default <= s.max && s.step > 0.0
  {
    match f
    case Ph => Slider("pH Level", 0.0, 14.0, 7.0, 0.1)
    case Hardness => Slider("Hardness (mg/L)", 47.0, 324.0, 195.0, 1.0)
    case Solids => Slider("Solids (TDS in ppm)", 320.0, 61227.0, 20927.0, 50.0)
    case Chloramines => Slider("Chloramines (ppm)", 0.35, 13.13, 7.13, 0.1)
    case Sulfate => Slider("Sulfate (mg/L)", 129.0, 481.0, 333.0, 1.0)
    case Conductivity => Slider("Conductivity (μS/cm)", 181.0, 754.0, 426.0, 1.0)
    case OrganicCarbon => Slider("Organic Carbon (ppm)", 2.2, 28.3, 14.2, 0.1)
    case Trihalomethanes => Slider("Trihalomethanes (μg/L)", 0.74, 124.0, 66.4, 1.0)
    case Turbidity => Slider("Turbidity (NTU)", 1.45, 6.74, 3.96, 0.01)
  }

  predicate InSliderRange(f: Feature, x: real)
  {
    SliderOf(f).min <= x <= SliderOf(f).max
  }

  /** A cell of the one-row input frame: a value, or NaN for an unchecked parameter. */
  datatype Cell = Value(x: real) | Missing

  /** What `get_user_inputs` returns for the given checkboxes and slider positions. */
  ghost predicate InputsFrom(inputs: map<Feature, Cell>, checked: set<Feature>, slider: Feature -> real)
  {
    forall f :: f in inputs && inputs[f] == (if f in checked then Value(slider(f)) else Missing)
  }

  /** `get_user_inputs`: visit the parameters in order; a checked one takes its
      slider's value and is appended to `known`, an unchecked one is NaN. A
      slider is drawn only for a checked parameter and keeps to its bounds. */
  method GetUserInputs(checked: set<Feature>, slider: Feature -> real)
    returns (inputs: map<Feature, Cell>, known: seq<Feature>)
    requires forall f :: f in checked ==> InSliderRange(f, slider(f))
    ensures InputsFrom(inputs, checked, slider)
    ensures forall f :: f in known <==> f in checked
    ensures forall i, j :: 0 <= i < j < |known| ==> Index(known[i]) < Index(known[j])
    ensures forall f :: f in inputs && inputs[f].Value? ==> InSliderRange(f, inputs[f].x)
  {
    inputs, known := map[], [];
    for i := 0 to |ParamOrder|
      invariant forall f :: f in inputs <==> Index(f) < i
      invariant forall f :: f in inputs ==> inputs[f] == (if f in checked then Value(slider(f)) else Missing)
      invariant forall f :: f in known <==> f in checked && Index(f) < i
      invariant forall a :: 0 <= a < |known| ==> Index(known[a]) < i
      invariant forall a, b :: 0 <= a < b < |known| ==> Index(known[a]) < Index(known[b])
    {
      var key := ParamOrder[i];
      assert Index(key) == i;
      if key in checked {
        inputs := inputs[key := Value(slider(key))];
        known := known + [key];
      } else {
        inputs := inputs[key := Missing];
      }
    }
  }

  /** `fillna(feature_means)`: every NaN becomes its column's training mean. */
  function Impute(inputs: map<Feature, Cell>, means: Feature -> real): (sample: map<Feature, real>)
    ensures sample.Keys == inputs.Keys
  {
    map f | f in inputs :: match inputs[f] case Value(x) => x case Missing => means(f)
  }

  /** After imputation a supplied parameter keeps the user's value, a missing
      one takes the mean, and nothing else changes. */
  lemma ImputeKeepsKnown(inputs: map<Feature, Cell>, checked: set<Feature>, slider: Feature -> real,
                         means: Feature -> real)
    requires InputsFrom(inputs, checked, slider)
    ensures forall f ::
      f in Impute(inputs, means) && Impute(inputs, means)[f] == (if f in checked then slider(f) else means(f))
  {
  }

  /** The four rule-based checks: pH outside the inclusive band [6.5, 8.5],
      solids above 1000, sulfate above 250, turbidity above 5. No other
      parameter has a rule. */
  predicate ViolatesRule(f: Feature, x: real)
  {
    match f
    case Ph => !(6.5 <= x <= 8.5)
    case Solids => x > 1000.0
    case Sulfate => x > 250.0
    case Turbidity => x > 5.0
    case _ => false
  }

  /** A reason names the offending parameter and the value shown in its message. */
  datatype Reason = Reason(feature: Feature, value: real)

  /** The parameters a list of reasons names. */
  function ReasonFeatures(reasons: seq<Reason>): (fs: set<Feature>)
    ensures forall i :: 0 <= i < |reasons| ==> reasons[i].feature in fs
  {
    set i | 0 <= i < |reasons| :: reasons[i].feature
  }

  lemma ReasonFeaturesSnoc(reasons: seq<Reason>, r: Reason)
    ensures ReasonFeatures(reasons + [r]) == ReasonFeatures(reasons) + {r.feature}
  {
    var ext := reasons + [r];
    assert forall i :: 0 <= i < |reasons| ==> ext[i] == reasons[i];
    assert ext[|reasons|] == r;
  }

  /** The parameters that have a rule, in the order the checks run. */
  const RuleOrder: seq<Feature> := [Ph, Solids, Sulfate, Turbidity]

  /** The parameters supplied by the user that break their rule. */
  ghost function Breaking(known: seq<Feature>, sample: map<Feature, real>): set<Feature>
    requires forall f :: f in known ==> f in sample
  {
    set f | f in known && ViolatesRule(f, sample[f])
  }

  /** The reasons the checks of `rules` produce, one check after the other. */
  ghost function Checks(rules: seq<Feature>, known: seq<Feature>, sample: map<Feature, real>): seq<Reason>
    requires forall f :: f in known ==> f in sample
  {
    if rules == [] then []
    else
      var f := rules[|rules| - 1];
      Checks(rules[..|rules| - 1], known, sample)
        + (if f in known && ViolatesRule(f, sample[f]) then [Reason(f, sample[f])] else [])
  }

  /** The checks of `rules` name exactly the supplied parameters of `rules` that break their rule. */
  lemma {:induction false} ChecksFeatures(rules: seq<Feature>, known: seq<Feature>, sample: map<Feature, real>)
    requires forall f :: f in known ==> f in sample
    ensures ReasonFeatures(Checks(rules, known, sample))
         == set f | f in rules && f in known && ViolatesRule(f, sample[f])
  {
    if rules != [] {
      var init, f := rules[..|rules| - 1], rules[|rules| - 1];
      ChecksFeatures(init, known, sample);
      assert (set g | g in rules && g in known && ViolatesRule(g, sample[g]))
          == (set g | g in init && g in known && ViolatesRule(g, sample[g]))
           + (if f in known && ViolatesRule(f, sample[f]) then {f} else {}) by {
        assert rules == init + [f];
      }
      if f in known && ViolatesRule(f, sample[f]) {
        ReasonFeaturesSnoc(Checks(init, known, sample), Reason(f, sample[f]));
      } else {
        assert Checks(rules, known, sample) == Checks(init, known, sample);
      }
    }
  }

  /** Each reason carries the sample's value of the parameter it names, and
      reasons follow the order of `rules` when that order is the sidebar's. */
  lemma {:induction false} ChecksValuesAndOrder(rules: seq<Feature>, known: seq<Feature>, sample: map<Feature, real>)
    requires forall f :: f in known ==> f in sample
    requires forall i, j :: 0 <= i < j < |rules| ==> Index(rules[i]) < Index(rules[j])
    ensures forall r :: r in Checks(rules, known, sample) ==>
      r.feature in known && r.value == sample[r.feature] && r.feature in rules
    ensures forall i, j :: 0 <= i < j < |Checks(rules, known, sample)| ==>
      Index(Checks(rules, known, sample)[i].feature) < Index(Checks(rules, known, sample)[j].feature)
  {
    if rules != [] {
      var init, f := rules[..|rules| - 1], rules[|rules| - 1];
      ChecksValuesAndOrder(init, known, sample);
      var rs0 := Checks(init, known, sample);
      assert rules == init + [f];
      forall r | r in rs0 ensures Index(r.feature) < Index(f) {
        var k :| 0 <= k < |init| && init[k] == r.feature;
      }
    }
  }

  /** Only the four ruled parameters can break a rule. */
  lemma BreakingIsRuled(known: seq<Feature>, sample: map<Feature, real>)
    requires forall f :: f in known ==> f in sample
    ensures Breaking(known, sample) == set f | f in RuleOrder && f in known && ViolatesRule(f, sample[f])
  {
  }

  /** The four checks in their order name exactly the breaking parameters,
      each with its value, in sidebar order. */
  lemma RuleChecksSpec(known: seq<Feature>, sample: map<Feature, real>)
    requires forall f :: f in known ==> f in sample
    ensures var rs := Checks(RuleOrder, known, sample);
      && ReasonFeatures(rs) == Breaking(known, sample)
      && (forall i :: 0 <= i < |rs| ==> rs[i].value == sample[rs[i].feature])
      && (forall i, j :: 0 <= i < j < |rs| ==> Index(rs[i].feature) < Index(rs[j].feature))
  {
    ChecksFeatures(RuleOrder, known, sample);
    ChecksValuesAndOrder(RuleOrder, known, sample);
    BreakingIsRuled(known, sample);
    var rs := Checks(RuleOrder, known, sample);
    assert forall i :: 0 <= i < |rs| ==> rs[i] in rs;
  }

  /** The reasons list: one entry per rule a user-supplied parameter breaks,
      in the order pH, solids, sulfate, turbidity. Only supplied parameters
      are looked up in the imputed sample. */
  method UnsafeReasons(known: seq<Feature>, sample: map<Feature, real>) returns (reasons: seq<Reason>)
    requires forall f :: f in known ==> f in sample
    ensures ReasonFeatures(reasons) == Breaking(known, sample)
    ensures forall i :: 0 <= i < |reasons| ==> reasons[i].value == sample[reasons[i].feature]
    ensures forall i, j :: 0 <= i < j < |reasons| ==> Index(reasons[i].feature) < Index(reasons[j].feature)
  {
    reasons := [];
    assert RuleOrder[..0] == [];
    if Ph in known && !(6.5 <= sample[Ph] <= 8.5) {
      reasons := reasons + [Reason(Ph, sample[Ph])];
    }
    assert RuleOrder[..1][..0] == RuleOrder[..0];
    assert reasons == Checks(RuleOrder[..1], known, sample);
    if Solids in known && sample[Solids] > 1000.0 {
      reasons := reasons + [Reason(Solids, sample[Solids])];
    }
    assert RuleOrder[..2][..1] == RuleOrder[..1];
    assert reasons == Checks(RuleOrder[..2], known, sample);
    if Sulfate in known && sample[Sulfate] > 250.0 {
      reasons := reasons + [Reason(Sulfate, sample[Sulfate])];
    }
    assert RuleOrder[..3][..2] == RuleOrder[..2];
    assert reasons == Checks(RuleOrder[..3], known, sample);
    if Turbidity in known && sample[Turbidity] > 5.0 {
      reasons := reasons + [Reason(Turbidity, sample[Turbidity])];
    }
    assert RuleOrder[..4][..3] == RuleOrder[..3] && RuleOrder[..4] == RuleOrder;
    assert reasons == Checks(RuleOrder, known, sample);
    RuleChecksSpec(known, sample);
  }

  /** The warning under an "unsafe" verdict. */
  datatype Warning = PrimaryReason(reason: Reason) | CombinationOfFactors

  /** The first reason, or the generic message when there is none. */
  function Warn(reasons: seq<Reason>): (w: Warning)
    ensures w.CombinationOfFactors? <==> reasons == []
    ensures w.PrimaryReason? ==> w.reason == reasons[0] && w.reason in reasons
  {
    if |reasons| > 0 then PrimaryReason(reasons[0]) else CombinationOfFactors
  }

  /** Over a list in parameter order, the primary reason is the earliest rule in that order. */
  lemma PrimaryIsEarliest(reasons: seq<Reason>)
    requires forall i, j :: 0 <= i < j < |reasons| ==> Index(reasons[i].feature) < Index(reasons[j].feature)
    requires reasons != []
    ensures forall r :: r in reasons ==> Index(Warn(reasons).reason.feature) <= Index(r.feature)
  {
  }

  datatype Verdict = SafeToDrink | UnsafeToDrink(warning: Warning)

  /** The prediction branch: a prediction of 1 is "safe" and computes no
      reason; anything else is "unsafe" with the first applicable reason. */
  method Assess(prediction: int, known: seq<Feature>, sample: map<Feature, real>) returns (v: Verdict)
    requires forall f :: f in known ==> f in sample
    ensures v.SafeToDrink? <==> prediction == 1
    ensures v.UnsafeToDrink? && v.warning.PrimaryReason? ==>
      var r := v.warning.reason;
      r.feature in known && ViolatesRule(r.feature, sample[r.feature]) && r.value == sample[r.feature]
      && forall f :: f in known && ViolatesRule(f, sample[f]) ==> Index(r.feature) <= Index(f)
    ensures v.UnsafeToDrink? && v.warning.CombinationOfFactors? ==>
      forall f :: f in known ==> !ViolatesRule(f, sample[f])
  {
    if prediction == 1 {
      return SafeToDrink;
    }
    var reasons := UnsafeReasons(known, sample);
    v := UnsafeToDrink(Warn(reasons));
    if reasons != [] {
      forall f | f in known && ViolatesRule(f, sample[f])
        ensures Index(reasons[0].feature) <= Index(f)
      {
        assert f in Breaking(known, sample);
        var k :| 0 <= k < |reasons| && reasons[k].feature == f;
      }
      assert reasons[0].feature in ReasonFeatures(reasons);
    } else {
      forall f | f in known ensures !ViolatesRule(f, sample[f]) {
        assert f !in Breaking(known, sample);
      }
    }
  }
}
