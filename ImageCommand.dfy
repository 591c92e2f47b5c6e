/**
 * The `image` command: configure one image stage from an optional device
 * model and the command-line options, then hand it the input file.
 */
module ImageCommand {
  import opened Wrappers
  import opened Php
  import opened Errors
  import opened Stages
  import opened Models
  import opened Parameters

  datatype Options = Options(input: Option<string>, output: Option<string>, model: Option<string>, image: ImageOptions)

  /**
   * How handle ends. The first two are reported and the command returns
   * normally; Failed is an exception, reported before exit(1); Configured is
   * the stage that is then run on the input file.
   */
  datatype Run =
    | InputRequired
    | InputFileMissing(path: string)
    | Failed(failure: Failure)
    | Configured(input: string, settings: Settings)

  /** What handle does, given whether the input file exists. */
  function Outcome(env: Environment, o: Options, inputExists: bool): Run {
    if !Truthy(o.input) then InputRequired
    else if !inputExists then InputFileMissing(o.input.value)
    else
      match ResolveModel(env.modelCases, o.model)
      case Failure(e) => Failed(e)
      case Success(model) =>
        match ParametersFailure(o.image, env.paletteColors)
        case Some(e) => Failed(e)
        case None => Configured(o.input.value, StageSettings(env, model, o.image, o.output))
  }

  /**
   * handle: the stage is configured from the model before the options are
   * applied to it, and given the output path only when one was given.
   */
  method Handle(env: Environment, o: Options, inputExists: bool) returns (run: Run)
    ensures run == Outcome(env, o, inputExists)
  {
    if !Truthy(o.input) {
      return InputRequired;
    }
    if !inputExists {
      return InputFileMissing(o.input.value);
    }
    var stage := new ImageStage();
    var model: Option<string> := None;
    if Truthy(o.model) {
      var resolved := GetModel(env.modelCases, o.model.value);
      if resolved.Failure? {
        return Failed(resolved.error);
      }
      model := Some(resolved.value);
      stage.ConfigureFromModel(env.imageDefaults(resolved.value));
    }
    var failure := ApplyImageParameters(stage, o.image, env.paletteColors);
    if failure.Some? {
      return Failed(failure.value);
    }
    if Truthy(o.output) {
      stage.SetOutputPath(o.output.value);
    }
    run := Configured(o.input.value, stage.Snapshot());
  }

  /** Without a truthy --input nothing else is looked at. */
  lemma InputRequiredFirst(env: Environment, o: Options, inputExists: bool)
    ensures Outcome(env, o, inputExists) == InputRequired <==> !Truthy(o.input)
  {
  }

  /**
   * With a model given, each setting of the configured stage is the user's
   * truthy option, else the colour-map default, else the model's default.
   */
  lemma ModelThenOptions(env: Environment, o: Options, inputExists: bool)
    requires Truthy(o.model)
    requires Outcome(env, o, inputExists).Configured?
    ensures var d := env.imageDefaults(o.model.value);
      var r := Outcome(env, o, inputExists).settings;
      && o.model.value in env.modelCases
      && r.width == (if Truthy(o.image.width) then Some(IntCast(o.image.width.value)) else d.width)
      && r.height == (if Truthy(o.image.height) then Some(IntCast(o.image.height.value)) else d.height)
      && r.rotation == (if Truthy(o.image.rotation) then Some(IntCast(o.image.rotation.value)) else d.rotation)
      && r.offsetX == (if Truthy(o.image.offsetX) then Some(IntCast(o.image.offsetX.value)) else d.offsetX)
      && r.offsetY == (if Truthy(o.image.offsetY) then Some(IntCast(o.image.offsetY.value)) else d.offsetY)
      && r.dither == (if o.image.dither then Some(true) else d.dither)
  {
    ModelDefaultsThenOptions(env, o.model.value, o.image);
  }

  /** An unknown model stops the command with the invalid-model exception, before any option is read. */
  lemma UnknownModelFails(env: Environment, o: Options)
    requires Truthy(o.input) && Truthy(o.model) && o.model.value !in env.modelCases
    ensures Outcome(env, o, true) == Failed(InvalidModel(o.model.value, env.modelCases))
  {
  }

  /** The output path is set exactly when --output is truthy; otherwise the model's (if any) stays. */
  lemma OutputPathOnlyWhenGiven(env: Environment, o: Options, inputExists: bool)
    requires Outcome(env, o, inputExists).Configured?
    ensures var r := Outcome(env, o, inputExists).settings;
      && (Truthy(o.output) ==> r.outputPath == o.output)
      && (!Truthy(o.output) && !Truthy(o.model) ==> r.outputPath == None)
  {
    var model := ResolveModel(env.modelCases, o.model).value;
    FalsyOptionKeepsSetting(if model.Some? then Overlay(Unset, env.imageDefaults(model.value)) else Unset, o.image, env.paletteColors);
  }
}
