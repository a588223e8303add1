// The model factory: choosing the network class from the features string
// and the model string, and the per-dataset settings written onto the new
// instance. Network classes are tags; what the classes build is outside the
// model.

module ModelFactory {
  import opened Wrappers
  import opened PyStrings
  import Husky

  /** The network classes the factory can construct. */
  datatype ModelClass =
    | RobotMultiPredictionSampler | RobotMultiFFRegression | RobotMultiTCNRegression
    | RobotMultiLSTMRegression | RobotMultiConvLSTMRegression | RobotMultiHierarchical | RobotPolicy
    | HuskyRobotMultiPredictionSampler | RobotMultiGoalSampler | RobotMultiImageSampler
    | PretrainImageAutoencoder | PretrainStateAutoencoder | PretrainSampler | ConditionalSampler
    | ConditionalImage | ConditionalImageGan | PretrainImageGan | Discriminator | Secondary
    | PretrainImageJigsaws | PretrainImageJigsawsGan | ConditionalImageJigsaws | ConditionalImageGanJigsaws
    | JigsawsDiscriminator
    | PretrainImageCostar | ConditionalImageCostar | CostarDiscriminator
    | PretrainImageAutoencoderHusky | HuskyPolicy | PretrainImageHuskyGan | ConditionalImageHusky
    | ConditionalImageHuskyGan | HuskyDiscriminator | HuskySecondary

  /**
   * A constructor call: the class, the goal flag passed first to the
   * discriminators, and whether `features=` is passed on.
   */
  datatype Construction = Construction(cls: ModelClass, goal: Option<bool>, passesFeatures: bool)

  /** The attributes a family block assigns; `None` leaves the class's own value. */
  datatype Settings = Settings(loadJpeg: Option<bool>, numOptions: Option<int>, nullOption: Option<int>,
                               validationSplit: Option<real>)

  datatype Setup = Setup(construction: Construction, settings: Settings)

  datatype FactoryError =
    | AttributeError(attribute: string)
    | NotImplementedError(message: string)

  /** The feature families, each with its own table of models. */
  datatype Family = Multi | Jigsaws | Costar | HuskyFamily

  const MultiName := "multi"
  const JigsawsName := "jigsaws"
  const CostarName := "costar"
  const HuskyName := "husky"

  /** The family named by the features string, compared as given (not lower-cased). */
  function FamilyOf(features: Option<string>): (r: Option<Family>)
    ensures r == Some(Multi) <==> features == Some(MultiName)
    ensures r == Some(Jigsaws) <==> features == Some(JigsawsName)
    ensures r == Some(Costar) <==> features == Some(CostarName)
    ensures r == Some(HuskyFamily) <==> features == Some(HuskyName)
  {
    if features == Some(MultiName) then Some(Multi)
    else if features == Some(JigsawsName) then Some(Jigsaws)
    else if features == Some(CostarName) then Some(Costar)
    else if features == Some(HuskyName) then Some(HuskyFamily)
    else None
  }

  const Predictor := "predictor"
  const PretrainImageEncoder := "pretrain_image_encoder"
  const PretrainImageGanName := "pretrain_image_gan"
  const ConditionalImageName := "conditional_image"
  const ConditionalImageGanName := "conditional_image_gan"
  const DiscriminatorName := "discriminator"
  const GoalDiscriminatorName := "goal_discriminator"
  const SecondaryName := "secondary"
  const PolicyName := "policy"

  function Plain(cls: ModelClass): Construction { Construction(cls, None, false) }
  function WithFeatures(cls: ModelClass): Construction { Construction(cls, None, true) }

  /** The `multi` table; `features=` is not passed on. */
  function MultiModel(model: string): Option<Construction>
  {
    if model == Predictor then Some(Plain(RobotMultiPredictionSampler))
    else if model == "ff_regression" then Some(Plain(RobotMultiFFRegression))
    else if model == "tcn_regression" then Some(Plain(RobotMultiTCNRegression))
    else if model == "lstm_regression" then Some(Plain(RobotMultiLSTMRegression))
    else if model == "conv_lstm_regression" then Some(Plain(RobotMultiConvLSTMRegression))
    else if model == "hierarchical" then Some(Plain(RobotMultiHierarchical))
    else if model == PolicyName then Some(Plain(RobotPolicy))
    else if model == "husky_predictor" then Some(Plain(HuskyRobotMultiPredictionSampler))
    else if model == "goal_sampler" then Some(Plain(RobotMultiGoalSampler))
    else if model == "image_sampler" then Some(Plain(RobotMultiImageSampler))
    else if model == PretrainImageEncoder then Some(Plain(PretrainImageAutoencoder))
    else if model == "pretrain_state_encoder" then Some(Plain(PretrainStateAutoencoder))
    else if model == "pretrain_sampler" then Some(Plain(PretrainSampler))
    else if model == "conditional_sampler" then Some(Plain(ConditionalSampler))
    else if model == ConditionalImageName then Some(Plain(ConditionalImage))
    else if model == ConditionalImageGanName then Some(Plain(ConditionalImageGan))
    else if model == PretrainImageGanName then Some(Plain(PretrainImageGan))
    else if model == DiscriminatorName then Some(Construction(Discriminator, Some(false), false))
    else if model == GoalDiscriminatorName then Some(Construction(Discriminator, Some(true), false))
    else if model == SecondaryName then Some(Plain(Secondary))
    else None
  }

  /** The `jigsaws` table. */
  function JigsawsModel(model: string): Option<Construction>
  {
    if model == PretrainImageEncoder then Some(WithFeatures(PretrainImageJigsaws))
    else if model == PretrainImageGanName then Some(WithFeatures(PretrainImageJigsawsGan))
    else if model == ConditionalImageName then Some(WithFeatures(ConditionalImageJigsaws))
    else if model == ConditionalImageGanName then Some(WithFeatures(ConditionalImageGanJigsaws))
    else if model == DiscriminatorName then Some(Construction(JigsawsDiscriminator, Some(false), true))
    else if model == GoalDiscriminatorName then Some(Construction(JigsawsDiscriminator, Some(true), true))
    else None
  }

  /** The `costar` table. */
  function CostarModel(model: string): Option<Construction>
  {
    if model == PretrainImageEncoder then Some(WithFeatures(PretrainImageCostar))
    else if model == ConditionalImageName then Some(WithFeatures(ConditionalImageCostar))
    else if model == DiscriminatorName then Some(Construction(CostarDiscriminator, Some(false), true))
    else if model == GoalDiscriminatorName then Some(Construction(CostarDiscriminator, Some(true), true))
    else None
  }

  /** The `husky` table. */
  function HuskyModel(model: string): Option<Construction>
  {
    if model == PretrainImageEncoder then Some(WithFeatures(PretrainImageAutoencoderHusky))
    else if model == PolicyName then Some(WithFeatures(HuskyPolicy))
    else if model == PretrainImageGanName then Some(WithFeatures(PretrainImageHuskyGan))
    else if model == Predictor then Some(WithFeatures(HuskyRobotMultiPredictionSampler))
    else if model == ConditionalImageName then Some(WithFeatures(ConditionalImageHusky))
    else if model == ConditionalImageGanName then Some(WithFeatures(ConditionalImageHuskyGan))
    else if model == DiscriminatorName then Some(Construction(HuskyDiscriminator, Some(false), true))
    else if model == GoalDiscriminatorName then Some(Construction(HuskyDiscriminator, Some(true), true))
    else if model == SecondaryName then Some(WithFeatures(HuskySecondary))
    else None
  }

  function FamilyModel(family: Family, model: string): Option<Construction>
  {
    match family
    case Multi => MultiModel(model)
    case Jigsaws => JigsawsModel(model)
    case Costar => CostarModel(model)
    case HuskyFamily => HuskyModel(model)
  }

  /** The attributes each family block writes onto the new instance. */
  function FamilySettings(family: Family, suturingNumOptions: int): (r: Settings)
    ensures family == Multi <==> r == Settings(None, None, None, None)
    ensures family == Jigsaws ==> r == Settings(Some(true), Some(suturingNumOptions), None, None)
    ensures family == Costar ==> r == Settings(Some(true), Some(42), Some(41), Some(0.2))
    ensures family == HuskyFamily ==>
              r == Settings(Some(false), Some(Husky.HuskyNumOptions()), Some(Husky.HuskyNullOption()), None)
              && r.nullOption.value == r.numOptions.value - 1
  {
    match family
    case Multi => Settings(None, None, None, None)
    case Jigsaws => Settings(Some(true), Some(suturingNumOptions), None, None)
    case Costar => Settings(Some(true), Some(42), Some(41), Some(0.2))
    case HuskyFamily => Settings(Some(false), Some(Husky.HuskyNumOptions()), Some(Husky.HuskyNullOption()), None)
  }

  const NoneLower := "lower"
  const LoadJpeg := "load_jpeg"
  const NotApplicable := "n/a"
  const MessageStart := "Combination of model "
  const MessageMiddle := " and features "
  const MessageEnd := " is not currently supported by CTP."

  /** The message of the `NotImplementedError` for an unsupported combination. */
  function UnsupportedMessage(model: string, features: Option<string>): string
  {
    var shown := if features.Some? then features.value else NotApplicable;
    MessageStart + model + MessageMiddle + shown + MessageEnd
  }

  /**
   * `MakeModel`'s choice. The model string is lower-cased first (a `None`
   * model has no `lower`); the features string is matched as given. In the
   * jigsaws, costar and husky families an unknown model leaves the
   * instance `None`, and the attribute assignment on it raises before the
   * `NotImplementedError` check is reached.
   */
  function Choose(features: Option<string>, model: Option<string>, suturingNumOptions: int): (r: Result<Setup, FactoryError>)
    ensures model.None? ==> r == Failure(AttributeError(NoneLower))
    ensures model.Some? && FamilyOf(features).None? ==>
              r == Failure(NotImplementedError(UnsupportedMessage(Lower(model.value), features)))
    ensures model.Some? && FamilyOf(features).Some? && FamilyModel(FamilyOf(features).value, Lower(model.value)).None? ==>
              r.Failure? && (FamilyOf(features) == Some(Multi) <==> r.error.NotImplementedError?)
    ensures r.Success? ==>
              && model.Some? && FamilyOf(features).Some?
              && FamilyModel(FamilyOf(features).value, Lower(model.value)) == Some(r.value.construction)
              && r.value.settings == FamilySettings(FamilyOf(features).value, suturingNumOptions)
  {
    if model.None? then Failure(AttributeError(NoneLower))
    else
      var m := Lower(model.value);
      match FamilyOf(features)
      case None => Failure(NotImplementedError(UnsupportedMessage(m, features)))
      case Some(family) =>
        match FamilyModel(family, m)
        case None =>
          if family == Multi then Failure(NotImplementedError(UnsupportedMessage(m, features)))
          else Failure(AttributeError(LoadJpeg))
        case Some(c) => Success(Setup(c, FamilySettings(family, suturingNumOptions)))
  }

  /** The model string is matched without regard to case. */
  lemma ModelCaseInsensitive(features: Option<string>, model: string, suturingNumOptions: int)
    ensures Choose(features, Some(model), suturingNumOptions) == Choose(features, Some(Lower(model)), suturingNumOptions)
  {
    LowerIdempotent(model);
  }

  /** The features string is not lower-cased: `"MULTI"` is no family. */
  lemma FeaturesCaseSensitive(model: string, suturingNumOptions: int)
    ensures Choose(Some("MULTI"), Some(model), suturingNumOptions)
            == Failure(NotImplementedError(UnsupportedMessage(Lower(model), Some("MULTI"))))
  {
    var upper := "MULTI";
    assert upper[0] == 'M';
    assert MultiName[0] == 'm' && JigsawsName[0] == 'j' && CostarName[0] == 'c' && HuskyName[0] == 'h';
    assert FamilyOf(Some(upper)).None?;
  }

  /**
   * In every family `"discriminator"` builds the family's discriminator with
   * the goal flag off and `"goal_discriminator"` the same class with it on.
   */
  lemma DiscriminatorGoalFlags(family: Family)
    ensures FamilyModel(family, DiscriminatorName).Some? && FamilyModel(family, GoalDiscriminatorName).Some?
    ensures FamilyModel(family, DiscriminatorName).value.goal == Some(false)
    ensures FamilyModel(family, GoalDiscriminatorName).value.goal == Some(true)
    ensures FamilyModel(family, DiscriminatorName).value.cls == FamilyModel(family, GoalDiscriminatorName).value.cls
  {
    assert DiscriminatorName != GoalDiscriminatorName;
    assert DiscriminatorName != Predictor && DiscriminatorName != PretrainImageEncoder;
    assert DiscriminatorName != PretrainImageGanName && DiscriminatorName != ConditionalImageName;
    assert DiscriminatorName != ConditionalImageGanName && DiscriminatorName != PolicyName;
    assert GoalDiscriminatorName != Predictor && GoalDiscriminatorName != PretrainImageEncoder;
    assert GoalDiscriminatorName != PretrainImageGanName && GoalDiscriminatorName != ConditionalImageName;
    assert GoalDiscriminatorName != ConditionalImageGanName && GoalDiscriminatorName != PolicyName;
  }

  /** Only the multi family constructs its classes without passing `features=` on. */
  lemma OnlyMultiDropsFeatures(family: Family, model: string)
    requires FamilyModel(family, model).Some?
    ensures FamilyModel(family, model).value.passesFeatures <==> family != Multi
  {
  }

  /** A lower-case model name known to the family's table gets that table's class and the family's settings. */
  lemma ChooseKnown(family: Family, features: string, model: string, suturingNumOptions: int)
    requires FamilyOf(Some(features)) == Some(family)
    requires Lower(model) == model
    ensures Choose(Some(features), Some(model), suturingNumOptions)
            == if FamilyModel(family, model).Some? then Success(Setup(FamilyModel(family, model).value, FamilySettings(family, suturingNumOptions)))
               else if family == Multi then Failure(NotImplementedError(UnsupportedMessage(model, Some(features))))
               else Failure(AttributeError(LoadJpeg))
  {
  }

  lemma PredictorIsLowerCase()
    ensures Lower(Predictor) == Predictor
  {
    LowerOfLowerCase(Predictor);
  }

  /** `"predictor"` selects the multi-family sampler under `multi`. */
  lemma PredictorUnderMulti(suturingNumOptions: int)
    ensures Choose(Some(MultiName), Some(Predictor), suturingNumOptions)
            == Success(Setup(Plain(RobotMultiPredictionSampler), Settings(None, None, None, None)))
  {
    PredictorIsLowerCase();
    ChooseKnown(Multi, MultiName, Predictor, suturingNumOptions);
  }

  /** `"predictor"` selects the Husky sampler, with the Husky option counts, under `husky`. */
  lemma PredictorUnderHusky(suturingNumOptions: int)
    ensures var r := Choose(Some(HuskyName), Some(Predictor), suturingNumOptions);
            r.Success? && r.value.construction.cls == HuskyRobotMultiPredictionSampler
            && r.value.settings == Settings(Some(false), Some(5), Some(4), None)
  {
    assert Predictor != PretrainImageEncoder && Predictor != PolicyName && Predictor != PretrainImageGanName;
    assert HuskyModel(Predictor) == Some(WithFeatures(HuskyRobotMultiPredictionSampler));
    PredictorIsLowerCase();
    ChooseKnown(HuskyFamily, HuskyName, Predictor, suturingNumOptions);
  }

  /** `"predictor"` is unknown to the costar table, so the attribute assignment on `None` raises. */
  lemma PredictorUnknownToCostar(suturingNumOptions: int)
    ensures Choose(Some(CostarName), Some(Predictor), suturingNumOptions) == Failure(AttributeError(LoadJpeg))
  {
    assert |Predictor| == 9;
    assert CostarModel(Predictor).None?;
    PredictorIsLowerCase();
    ChooseKnown(Costar, CostarName, Predictor, suturingNumOptions);
  }

  /** `"predictor"` is unknown to the jigsaws table, so the attribute assignment on `None` raises. */
  lemma PredictorUnknownToJigsaws(suturingNumOptions: int)
    ensures Choose(Some(JigsawsName), Some(Predictor), suturingNumOptions) == Failure(AttributeError(LoadJpeg))
  {
    assert |Predictor| == 9;
    assert JigsawsModel(Predictor).None?;
    PredictorIsLowerCase();
    ChooseKnown(Jigsaws, JigsawsName, Predictor, suturingNumOptions);
  }

  /** `GetModels`: the model names offered to the command line, `None` first. */
  const Models: seq<Option<string>> := [
    None, Some("ff_regression"), Some("tcn_regression"), Some("lstm_regression"),
    Some("conv_lstm_regression"), Some(Predictor), Some("hierarchical"), Some(PolicyName),
    Some("goal_sampler"), Some("image_sampler"), Some(PretrainImageEncoder),
    Some("pretrain_state_encoder"), Some("pretrain_sampler"), Some("conditional_sampler"),
    Some(ConditionalImageName), Some(ConditionalImageGanName), Some(PretrainImageGanName),
    Some(DiscriminatorName), Some(GoalDiscriminatorName), Some(SecondaryName)]

  function GetModels(): (r: seq<Option<string>>)
    ensures |r| == 20 && r[0].None?
  {
    Models
  }

  /**
   * Every name `GetModels` offers is in the multi table, while the `None`
   * it offers first cannot be passed to the factory at all.
   */
  lemma GetModelsAllMulti(k: nat, suturingNumOptions: int)
    requires k < |GetModels()|
    ensures k == 0 ==> Choose(Some(MultiName), GetModels()[k], suturingNumOptions) == Failure(AttributeError(NoneLower))
    ensures k > 0 ==> MultiModel(GetModels()[k].value).Some?
  {
  }

  /** A new network instance; the attribute fields start at the class's own values. */
  class ModelInstance {
    const construction: Construction
    var loadJpeg: Option<bool>
    var numOptions: Option<int>
    var nullOption: Option<int>
    var validationSplit: Option<real>

    constructor (c: Construction)
      ensures construction == c
      ensures loadJpeg.None? && numOptions.None? && nullOption.None? && validationSplit.None?
    {
      construction := c;
      loadJpeg, numOptions, nullOption, validationSplit := None, None, None, None;
    }

    function CurrentSettings(): Settings
      reads this
    {
      Settings(loadJpeg, numOptions, nullOption, validationSplit)
    }
  }

  /**
   * `MakeModel`: builds the chosen class and then, for the jigsaws, costar
   * and husky families, assigns that family's attributes on the instance.
   */
  method MakeModel(features: Option<string>, model: Option<string>, suturingNumOptions: int)
    returns (r: Result<ModelInstance, FactoryError>)
    ensures var choice := Choose(features, model, suturingNumOptions);
            && (r.Success? <==> choice.Success?)
            && (r.Failure? ==> r.error == choice.error)
            && (r.Success? ==> fresh(r.value) && r.value.construction == choice.value.construction
                               && r.value.CurrentSettings() == choice.value.settings)
  {
    if model.None? {
      return Failure(AttributeError(NoneLower));
    }
    var m := Lower(model.value);
    var family := FamilyOf(features);
    if family.None? {
      return Failure(NotImplementedError(UnsupportedMessage(m, features)));
    }
    var c := FamilyModel(family.value, m);
    if c.None? {
      if family.value == Multi {
        return Failure(NotImplementedError(UnsupportedMessage(m, features)));
      }
      return Failure(AttributeError(LoadJpeg));
    }
    var instance := new ModelInstance(c.value);
    match family.value {
      case Multi =>
      case Jigsaws =>
        instance.loadJpeg := Some(true);
        instance.numOptions := Some(suturingNumOptions);
      case Costar =>
        instance.loadJpeg := Some(true);
        instance.nullOption := Some(41);
        instance.numOptions := Some(42);
        instance.validationSplit := Some(0.2);
      case HuskyFamily =>
        instance.loadJpeg := Some(false);
        instance.numOptions := Some(Husky.HuskyNumOptions());
        instance.nullOption := Some(Husky.HuskyNullOption());
    }
    return Success(instance);
  }
}
