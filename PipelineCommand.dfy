/**
 * The `pipeline` command: a browser stage that renders the page, followed by
 * an image stage configured like the `image` command's, run in that order.
 */
module PipelineCommand {
  import opened Wrappers
  import opened Php
  import opened Errors
  import opened Stages
  import opened Colormap
  import opened Models
  import opened Parameters

  datatype Options = Options(
    input: Option<string>,
    output: Option<string>,
    model: Option<string>,
    timezone: Option<string>,
    image: ImageOptions)

  /** How handle ends; Ready is the pipeline, with its model and its stages in order, about to be processed. */
  datatype Run =
    | InputRequired
    | Failed(failure: Failure)
    | Ready(model: Option<string>, stages: seq<StageView>)

  /** The settings of the stages a pipeline holds, in pipeline order. */
  function Views(stages: seq<StageRef>): (r: seq<StageView>)
    reads set s | s in stages && s.BrowserRef? :: s.browser
    reads set s | s in stages && s.ImageRef? :: s.image
    ensures |r| == |stages|
  {
    if stages == [] then []
    else
      var head := match stages[0]
        case BrowserRef(b) => BrowserView(b.Snapshot())
        case ImageRef(i) => ImageView(i.Snapshot());
      [head] + Views(stages[1..])
  }

  lemma ViewsOfTwo(b: BrowserStage, i: ImageStage)
    ensures Views([BrowserRef(b), ImageRef(i)]) == [BrowserView(b.Snapshot()), ImageView(i.Snapshot())]
  {
    assert [BrowserRef(b), ImageRef(i)][1..] == [ImageRef(i)];
  }

  /**
   * applyTimezone: a zone outside the known identifiers is refused and the
   * stage is left as it was; a known one is set on the browser stage.
   */
  method ApplyTimezone(stage: BrowserStage, zone: string, known: set<string>) returns (failure: Option<Failure>)
    modifies stage
    ensures zone !in known ==> failure == Some(InvalidTimezone(zone)) && stage.Snapshot() == old(stage.Snapshot())
    ensures zone in known ==> failure == None && stage.Snapshot() == old(stage.Snapshot()).(timezone := Some(zone))
  {
    if zone !in known {
      return Some(InvalidTimezone(zone));
    }
    stage.SetTimezone(zone);
    failure := None;
  }

  /** The browser stage's settings: the page, and the time zone when one was given. */
  function BrowserSettingsFor(html: string, o: Options): BrowserSettings {
    BrowserSettings(html, if Truthy(o.timezone) then o.timezone else None, None)
  }

  /** What handle does, given what reading the input produced (the page, or the exception). */
  function Outcome(env: Environment, o: Options, content: Result<string, Failure>): Run {
    if !Truthy(o.input) then InputRequired
    else
      match content
      case Failure(e) => Failed(e)
      case Success(html) =>
        match ResolveModel(env.modelCases, o.model)
        case Failure(e) => Failed(e)
        case Success(model) =>
          if Truthy(o.timezone) && o.timezone.value !in env.timezones then
            Failed(InvalidTimezone(o.timezone.value))
          else
            match ParametersFailure(o.image, env.paletteColors)
            case Some(e) => Failed(e)
            case None =>
              Ready(model, [BrowserView(BrowserSettingsFor(html, o)),
                            ImageView(StageSettings(env, model, o.image, o.output))])
  }

  /** The browser stage of handle: the page, then the time zone when one is given. */
  method NewBrowserStage(html: string, o: Options, known: set<string>) returns (browser: BrowserStage, failure: Option<Failure>)
    ensures fresh(browser)
    ensures failure == (if Truthy(o.timezone) && o.timezone.value !in known then Some(InvalidTimezone(o.timezone.value)) else None)
    ensures failure.None? ==> browser.Snapshot() == BrowserSettingsFor(html, o)
  {
    browser := new BrowserStage();
    browser.SetHtml(html);
    failure := None;
    if Truthy(o.timezone) {
      failure := ApplyTimezone(browser, o.timezone.value, known);
    }
  }

  /** The image stage of handle: the model's defaults first, then the options, then the output path. */
  method NewImageStage(env: Environment, model: Option<string>, o: Options) returns (image: ImageStage, failure: Option<Failure>)
    ensures fresh(image)
    ensures failure == ParametersFailure(o.image, env.paletteColors)
    ensures failure.None? ==> image.Snapshot() == StageSettings(env, model, o.image, o.output)
  {
    image := new ImageStage();
    if model.Some? {
      image.ConfigureFromModel(env.imageDefaults(model.value));
    }
    failure := ApplyImageParameters(image, o.image, env.paletteColors);
    if failure.None? && Truthy(o.output) {
      image.SetOutputPath(o.output.value);
    }
  }

  /**
   * handle: build the pipeline, pipe the browser stage, configure the image
   * stage from the model and then from the options, pipe it.
   */
  method Handle(env: Environment, o: Options, content: Result<string, Failure>) returns (run: Run)
    ensures run == Outcome(env, o, content)
  {
    if !Truthy(o.input) {
      return InputRequired;
    }
    if content.Failure? {
      return Failed(content.error);
    }
    var pipeline := new Pipeline();
    var model: Option<string> := None;
    if Truthy(o.model) {
      var resolved := GetModel(env.modelCases, o.model.value);
      if resolved.Failure? {
        return Failed(resolved.error);
      }
      model := Some(resolved.value);
      pipeline.SetModel(resolved.value);
    }

    var browser, browserFailure := NewBrowserStage(content.value, o, env.timezones);
    if browserFailure.Some? {
      return Failed(browserFailure.value);
    }
    pipeline.Pipe(BrowserRef(browser));

    var image, imageFailure := NewImageStage(env, model, o);
    if imageFailure.Some? {
      return Failed(imageFailure.value);
    }
    pipeline.Pipe(ImageRef(image));

    assert pipeline.stages == [BrowserRef(browser), ImageRef(image)];
    ViewsOfTwo(browser, image);
    run := Ready(pipeline.model, Views(pipeline.stages));
  }

  /** An unknown model stops the pipeline with the invalid-model exception, before any stage is configured. */
  lemma UnknownModelFails(env: Environment, o: Options, html: string)
    requires Truthy(o.input) && Truthy(o.model) && o.model.value !in env.modelCases
    ensures Outcome(env, o, Success(html)) == Failed(InvalidModel(o.model.value, env.modelCases))
  {
  }

  /** Without a truthy --input the command returns before any pipeline or stage exists. */
  lemma InputRequiredFirst(env: Environment, o: Options, content: Result<string, Failure>)
    ensures Outcome(env, o, content) == InputRequired <==> !Truthy(o.input)
  {
  }

  /** A ready pipeline holds exactly two stages: the browser stage with the page, then the image stage. */
  lemma BrowserThenImage(env: Environment, o: Options, content: Result<string, Failure>)
    requires Outcome(env, o, content).Ready?
    ensures var stages := Outcome(env, o, content).stages;
      && content.Success?
      && |stages| == 2
      && stages[0].BrowserView? && stages[0].browserSettings.html == content.value
      && stages[1].ImageView?
  {
  }

  /**
   * A truthy time zone outside the known identifiers fails with "Invalid
   * timezone"; a ready pipeline's browser stage carries the zone only when
   * it was given and known.
   */
  lemma TimezoneValidated(env: Environment, o: Options, html: string)
    requires Truthy(o.input) && ResolveModel(env.modelCases, o.model).Success?
    ensures Truthy(o.timezone) && o.timezone.value !in env.timezones ==>
      Outcome(env, o, Success(html)) == Failed(InvalidTimezone(o.timezone.value))
      && Message(Outcome(env, o, Success(html)).failure) == "Invalid timezone: " + o.timezone.value
    ensures Outcome(env, o, Success(html)).Ready? ==>
      var zone := Outcome(env, o, Success(html)).stages[0].browserSettings.timezone;
      && (Truthy(o.timezone) ==> zone == o.timezone && o.timezone.value in env.timezones)
      && (!Truthy(o.timezone) ==> zone == None)
  {
  }

  /**
   * The colour map wins over the palette in the pipeline too: the image stage
   * gets the trimmed, non-empty tokens of --colormap, in order.
   */
  lemma {:induction false} ColormapWinsInPipeline(env: Environment, o: Options, content: Result<string, Failure>)
    requires Outcome(env, o, content).Ready?
    requires Truthy(o.image.colormap)
    ensures var s := Outcome(env, o, content).stages[1].imageSettings;
      var parsed := ParseColormap(o.image.colormap.value);
      && parsed.Success?
      && s.colormap == Some(parsed.value)
      && SelectsNonEmpty(parsed.value, Tokens(o.image.colormap.value), KeptIndices(Tokens(o.image.colormap.value)))
  {
    var parsed := ParseColormap(o.image.colormap.value);
    ColormapWins(o.image.palette, o.image.colormap, env.paletteColors);
    assert ParametersFailure(o.image, env.paletteColors).None?;
    ColormapDefaultsInPipeline(env, o, content, parsed.value);
    ParseColormapSelects(o.image.colormap.value);
  }

  /**
   * In the pipeline the colour-map defaults (its size, "png", bit depth 2)
   * fill only the options the user left unset.
   */
  lemma {:induction false} ColormapDefaultsInPipeline(env: Environment, o: Options, content: Result<string, Failure>, cm: seq<string>)
    requires Outcome(env, o, content).Ready?
    requires GetColormap(o.image.palette, o.image.colormap, env.paletteColors) == Success(Some(cm))
    ensures var s := Outcome(env, o, content).stages[1].imageSettings;
      && s.colormap == Some(cm)
      && s.colors == (if Truthy(o.image.colors) then Some(IntCast(o.image.colors.value)) else Some(|cm|))
      && s.format == (if Truthy(o.image.format) then o.image.format else Some("png"))
      && s.bitDepth == (if Truthy(o.image.bitDepth) then Some(IntCast(o.image.bitDepth.value)) else Some(2))
  {
    var model := ResolveModel(env.modelCases, o.model).value;
    var base := if model.Some? then Overlay(Unset, env.imageDefaults(model.value)) else Unset;
    var r := AfterParameters(base, o.image, env.paletteColors);
    ColormapFillsOnlyUnset(base, o.image, env.paletteColors, cm);
    assert Outcome(env, o, content).stages[1].imageSettings == StageSettings(env, model, o.image, o.output);
    assert StageSettings(env, model, o.image, o.output) == if Truthy(o.output) then r.(outputPath := o.output) else r;
  }

  /**
   * The image stage is configured from the model before the options: a
   * truthy option is final, any other setting is the model's; the output
   * path is the given one, when given.
   */
  lemma {:induction false} ModelBeforeOptions(env: Environment, o: Options, content: Result<string, Failure>)
    requires Outcome(env, o, content).Ready?
    requires Truthy(o.model)
    ensures var d := env.imageDefaults(o.model.value);
      var s := Outcome(env, o, content).stages[1].imageSettings;
      && Outcome(env, o, content).model == Some(o.model.value)
      && s.width == (if Truthy(o.image.width) then Some(IntCast(o.image.width.value)) else d.width)
      && s.height == (if Truthy(o.image.height) then Some(IntCast(o.image.height.value)) else d.height)
      && s.rotation == (if Truthy(o.image.rotation) then Some(IntCast(o.image.rotation.value)) else d.rotation)
      && s.offsetX == (if Truthy(o.image.offsetX) then Some(IntCast(o.image.offsetX.value)) else d.offsetX)
      && s.offsetY == (if Truthy(o.image.offsetY) then Some(IntCast(o.image.offsetY.value)) else d.offsetY)
      && s.dither == (if o.image.dither then Some(true) else d.dither)
      && (Truthy(o.image.format) ==> s.format == o.image.format)
      && (Truthy(o.image.colors) ==> s.colors == Some(IntCast(o.image.colors.value)))
      && (Truthy(o.image.bitDepth) ==> s.bitDepth == Some(IntCast(o.image.bitDepth.value)))
      && s.outputPath == (if Truthy(o.output) then o.output else d.outputPath)
  {
    ReadyImageStage(env, o, content);
    ModelStageSettings(env, o.model.value, o.image, o.output);
  }

  /** A ready pipeline holds the resolved model, and its image stage is configured from it and the options. */
  lemma {:induction false} ReadyImageStage(env: Environment, o: Options, content: Result<string, Failure>)
    requires Outcome(env, o, content).Ready?
    ensures ResolveModel(env.modelCases, o.model).Success?
    ensures Outcome(env, o, content).model == ResolveModel(env.modelCases, o.model).value
    ensures Outcome(env, o, content).stages[1].imageSettings
      == StageSettings(env, ResolveModel(env.modelCases, o.model).value, o.image, o.output)
  {
  }
}
