/**
 * applyImageParameters, shared by the image and pipeline commands: the
 * command-line options written over an image stage that the device model
 * may already have configured, then the colour-map defaults.
 */
module Parameters {
  import opened Wrappers
  import opened Php
  import opened Errors
  import opened Stages
  import opened Colormap

  /** The options applyImageParameters reads; absent options are None, --dither is a flag. */
  datatype ImageOptions = ImageOptions(
    format: Option<string>,
    width: Option<string>,
    height: Option<string>,
    rotation: Option<string>,
    colors: Option<string>,
    bitDepth: Option<string>,
    offsetX: Option<string>,
    offsetY: Option<string>,
    dither: bool,
    palette: Option<string>,
    colormap: Option<string>)

  /** A numeric option: written, cast with (int), only when it is truthy. */
  function IntOption(option: Option<string>, current: Option<int>): Option<int> {
    if Truthy(option) then Some(IntCast(option.value)) else current
  }

  /** A number typed on the command line overrides the setting exactly when it is not zero. */
  lemma NumericOption(n: int, current: Option<int>)
    requires IntMin <= n <= IntMax
    ensures IntOption(Some(Decimal(n)), current) == if n == 0 then current else Some(n)
  {
    DecimalTruthy(n);
    if n != 0 {
      IntCastDecimal(n);
    }
  }

  /** "0" is falsy and leaves the setting alone, but "00" is truthy and sets it to 0. */
  lemma ZeroSpellings(current: Option<int>)
    ensures IntOption(Some("0"), current) == current
    ensures IntOption(Some("00"), current) == Some(0)
  {
    var z := "00";
    ZerosValue(z);
    IntCastOfDigits(z);
  }

  /**
   * The first part of applyImageParameters: each truthy option set on the
   * stage. The colour map and the output path are not options it reads.
   */
  function UserOverrides(s: Settings, o: ImageOptions): (r: Settings)
    ensures r.colormap == s.colormap && r.outputPath == s.outputPath
  {
    s.(format := if Truthy(o.format) then o.format else s.format,
       width := IntOption(o.width, s.width),
       height := IntOption(o.height, s.height),
       rotation := IntOption(o.rotation, s.rotation),
       colors := IntOption(o.colors, s.colors),
       bitDepth := IntOption(o.bitDepth, s.bitDepth),
       offsetX := IntOption(o.offsetX, s.offsetX),
       offsetY := IntOption(o.offsetY, s.offsetY),
       dither := if o.dither then Some(true) else s.dither)
  }

  /**
   * The second part, with a resolved colour map: the map itself, and colour
   * count, "png" and bit depth 2 for the options the user left unset.
   */
  function ColormapFill(s: Settings, o: ImageOptions, cm: seq<string>): (r: Settings)
    ensures r.colormap == Some(cm)
    ensures r.(colormap := s.colormap, colors := s.colors, format := s.format, bitDepth := s.bitDepth) == s
  {
    s.(colormap := Some(cm),
       colors := if Truthy(o.colors) then s.colors else Some(|cm|),
       format := if Truthy(o.format) then s.format else Some("png"),
       bitDepth := if Truthy(o.bitDepth) then s.bitDepth else Some(2))
  }

  /** The stage's settings after applyImageParameters, from the settings before. */
  function AfterParameters(s: Settings, o: ImageOptions, paletteColors: string -> Option<seq<string>>): (r: Settings)
    ensures r.outputPath == s.outputPath
    ensures r.colormap == match GetColormap(o.palette, o.colormap, paletteColors)
      case Success(Some(cm)) => Some(cm)
      case _ => s.colormap
  {
    var u := UserOverrides(s, o);
    match GetColormap(o.palette, o.colormap, paletteColors)
    case Success(Some(cm)) => ColormapFill(u, o, cm)
    case _ => u
  }

  /** The exception applyImageParameters raises, if any: only the colour-map resolution can fail. */
  function ParametersFailure(o: ImageOptions, paletteColors: string -> Option<seq<string>>): Option<Failure> {
    match GetColormap(o.palette, o.colormap, paletteColors)
    case Failure(e) => Some(e)
    case _ => None
  }

  // The option setters of applyImageParameters, in the source's order: the
  // format and size, then rotation, colour count and bit depth, then the
  // offsets and dithering.

  method ApplyFormatAndSize(stage: ImageStage, o: ImageOptions)
    modifies stage
    ensures stage.Snapshot() == old(stage.Snapshot()).(
      format := if Truthy(o.format) then o.format else old(stage.format),
      width := IntOption(o.width, old(stage.width)),
      height := IntOption(o.height, old(stage.height)))
  {
    if Truthy(o.format) {
      stage.SetFormat(o.format.value);
    }
    if Truthy(o.width) {
      stage.SetWidth(IntCast(o.width.value));
    }
    if Truthy(o.height) {
      stage.SetHeight(IntCast(o.height.value));
    }
  }

  method ApplyRotationAndDepth(stage: ImageStage, o: ImageOptions)
    modifies stage
    ensures stage.Snapshot() == old(stage.Snapshot()).(
      rotation := IntOption(o.rotation, old(stage.rotation)),
      colors := IntOption(o.colors, old(stage.colors)),
      bitDepth := IntOption(o.bitDepth, old(stage.bitDepth)))
  {
    if Truthy(o.rotation) {
      stage.SetRotation(IntCast(o.rotation.value));
    }
    if Truthy(o.colors) {
      stage.SetColors(IntCast(o.colors.value));
    }
    if Truthy(o.bitDepth) {
      stage.SetBitDepth(IntCast(o.bitDepth.value));
    }
  }

  method ApplyOffsetsAndDither(stage: ImageStage, o: ImageOptions)
    modifies stage
    ensures stage.Snapshot() == old(stage.Snapshot()).(
      offsetX := IntOption(o.offsetX, old(stage.offsetX)),
      offsetY := IntOption(o.offsetY, old(stage.offsetY)),
      dither := if o.dither then Some(true) else old(stage.dither))
  {
    if Truthy(o.offsetX) {
      stage.SetOffsetX(IntCast(o.offsetX.value));
    }
    if Truthy(o.offsetY) {
      stage.SetOffsetY(IntCast(o.offsetY.value));
    }
    if o.dither {
      stage.SetDither(true);
    }
  }

  method ApplyOptions(stage: ImageStage, o: ImageOptions)
    modifies stage
    ensures stage.Snapshot() == UserOverrides(old(stage.Snapshot()), o)
  {
    ApplyFormatAndSize(stage, o);
    ApplyRotationAndDepth(stage, o);
    ApplyOffsetsAndDither(stage, o);
  }

  /** The colour-map step of applyImageParameters, once the colour map is resolved. */
  method ApplyColormap(stage: ImageStage, o: ImageOptions, cm: seq<string>)
    modifies stage
    ensures stage.Snapshot() == ColormapFill(old(stage.Snapshot()), o, cm)
  {
    stage.SetColormap(cm);
    if !Truthy(o.colors) {
      stage.SetColors(|cm|);
    }
    if !Truthy(o.format) {
      stage.SetFormat("png");
    }
    if !Truthy(o.bitDepth) {
      stage.SetBitDepth(2);
    }
  }

  /**
   * applyImageParameters on an image stage. When the colour map cannot be
   * resolved the exception comes after the option setters already ran, so the
   * stage keeps those writes.
   */
  method ApplyImageParameters(stage: ImageStage, o: ImageOptions, paletteColors: string -> Option<seq<string>>)
    returns (failure: Option<Failure>)
    modifies stage
    ensures failure == ParametersFailure(o, paletteColors)
    ensures stage.Snapshot() == AfterParameters(old(stage.Snapshot()), o, paletteColors)
  {
    ApplyOptions(stage, o);
    var resolved := GetColormap(o.palette, o.colormap, paletteColors);
    if resolved.Failure? {
      return Some(resolved.error);
    }
    if resolved.value.Some? {
      ApplyColormap(stage, o, resolved.value.value);
    }
    failure := None;
  }

  /** Every option the user gave a truthy value ends up as the stage's setting, colour map or not. */
  lemma TruthyOptionIsFinal(s: Settings, o: ImageOptions, paletteColors: string -> Option<seq<string>>)
    ensures var r := AfterParameters(s, o, paletteColors);
      && (Truthy(o.format) ==> r.format == o.format)
      && (Truthy(o.width) ==> r.width == Some(IntCast(o.width.value)))
      && (Truthy(o.height) ==> r.height == Some(IntCast(o.height.value)))
      && (Truthy(o.rotation) ==> r.rotation == Some(IntCast(o.rotation.value)))
      && (Truthy(o.colors) ==> r.colors == Some(IntCast(o.colors.value)))
      && (Truthy(o.bitDepth) ==> r.bitDepth == Some(IntCast(o.bitDepth.value)))
      && (Truthy(o.offsetX) ==> r.offsetX == Some(IntCast(o.offsetX.value)))
      && (Truthy(o.offsetY) ==> r.offsetY == Some(IntCast(o.offsetY.value)))
      && (o.dither ==> r.dither == Some(true))
  {
    var u := UserOverrides(s, o);
    var resolved := GetColormap(o.palette, o.colormap, paletteColors);
    if resolved.Success? && resolved.value.Some? {
      assert AfterParameters(s, o, paletteColors) == ColormapFill(u, o, resolved.value.value);
    } else {
      assert AfterParameters(s, o, paletteColors) == u;
    }
  }

  /**
   * An option that is absent or falsy ("" or "0") leaves the setting as it
   * was: always for the geometry and dithering, and for the colour count,
   * format and bit depth unless a colour map was resolved (none was asked
   * for, or its resolution failed). The output path is never touched.
   */
  lemma FalsyOptionKeepsSetting(s: Settings, o: ImageOptions, paletteColors: string -> Option<seq<string>>)
    ensures var r := AfterParameters(s, o, paletteColors);
      && (!Truthy(o.width) ==> r.width == s.width)
      && (!Truthy(o.height) ==> r.height == s.height)
      && (!Truthy(o.rotation) ==> r.rotation == s.rotation)
      && (!Truthy(o.offsetX) ==> r.offsetX == s.offsetX)
      && (!Truthy(o.offsetY) ==> r.offsetY == s.offsetY)
      && (!o.dither ==> r.dither == s.dither)
      && r.outputPath == s.outputPath
      && (!(GetColormap(o.palette, o.colormap, paletteColors).Success?
            && GetColormap(o.palette, o.colormap, paletteColors).value.Some?) ==>
            && r.colormap == s.colormap
            && (!Truthy(o.colors) ==> r.colors == s.colors)
            && (!Truthy(o.format) ==> r.format == s.format)
            && (!Truthy(o.bitDepth) ==> r.bitDepth == s.bitDepth))
  {
  }

  /**
   * With a resolved colour map, the stage gets the map, and the colour count,
   * "png" and bit depth 2 fill exactly the options the user left unset.
   */
  lemma ColormapFillsOnlyUnset(s: Settings, o: ImageOptions, paletteColors: string -> Option<seq<string>>, cm: seq<string>)
    requires GetColormap(o.palette, o.colormap, paletteColors) == Success(Some(cm))
    ensures var r := AfterParameters(s, o, paletteColors);
      && r.colormap == Some(cm)
      && r.colors == (if Truthy(o.colors) then Some(IntCast(o.colors.value)) else Some(|cm|))
      && r.format == (if Truthy(o.format) then o.format else Some("png"))
      && r.bitDepth == (if Truthy(o.bitDepth) then Some(IntCast(o.bitDepth.value)) else Some(2))
  {
  }

  /** The colour-map defaults touch only the colour map, colour count, format and bit depth. */
  lemma ColormapStepTouchesOnlyItsFields(s: Settings, o: ImageOptions, cm: seq<string>)
    ensures ColormapFill(s, o, cm) == s.(colormap := ColormapFill(s, o, cm).colormap,
                                         colors := ColormapFill(s, o, cm).colors,
                                         format := ColormapFill(s, o, cm).format,
                                         bitDepth := ColormapFill(s, o, cm).bitDepth)
  {
  }

  /** The settings of an image stage configured from an optional model and then from the options. */
  function ModelThenParameters(env: Environment, model: Option<string>, o: ImageOptions): Settings {
    var base := if model.Some? then Overlay(Unset, env.imageDefaults(model.value)) else Unset;
    AfterParameters(base, o, env.paletteColors)
  }

  /** The image stage a command runs: model, then options, then the output path when one is given. */
  function StageSettings(env: Environment, model: Option<string>, o: ImageOptions, output: Option<string>): Settings {
    var s := ModelThenParameters(env, model, o);
    if Truthy(output) then s.(outputPath := output) else s
  }

  /**
   * Model defaults come first and options second, so each setting is the
   * user's truthy option, else the colour-map default, else the model's.
   */
  lemma ModelDefaultsThenOptions(env: Environment, m: string, o: ImageOptions)
    ensures var d := env.imageDefaults(m);
      var r := ModelThenParameters(env, Some(m), o);
      && r.width == (if Truthy(o.width) then Some(IntCast(o.width.value)) else d.width)
      && r.height == (if Truthy(o.height) then Some(IntCast(o.height.value)) else d.height)
      && r.rotation == (if Truthy(o.rotation) then Some(IntCast(o.rotation.value)) else d.rotation)
      && r.offsetX == (if Truthy(o.offsetX) then Some(IntCast(o.offsetX.value)) else d.offsetX)
      && r.offsetY == (if Truthy(o.offsetY) then Some(IntCast(o.offsetY.value)) else d.offsetY)
      && r.dither == (if o.dither then Some(true) else d.dither)
      && match GetColormap(o.palette, o.colormap, env.paletteColors)
         case Success(Some(cm)) =>
           && r.colors == (if Truthy(o.colors) then Some(IntCast(o.colors.value)) else Some(|cm|))
           && r.format == (if Truthy(o.format) then o.format else Some("png"))
           && r.bitDepth == (if Truthy(o.bitDepth) then Some(IntCast(o.bitDepth.value)) else Some(2))
         case _ =>
           && r.colors == (if Truthy(o.colors) then Some(IntCast(o.colors.value)) else d.colors)
           && r.format == (if Truthy(o.format) then o.format else d.format)
           && r.bitDepth == (if Truthy(o.bitDepth) then Some(IntCast(o.bitDepth.value)) else d.bitDepth)
  {
  }

  /**
   * A stage configured from model `m`, then the options, then the output
   * path: every truthy option is final, the geometry and dithering fall back
   * to the model's, and the output path is the given one, else the model's.
   */
  lemma {:induction false} ModelStageSettings(env: Environment, m: string, o: ImageOptions, output: Option<string>)
    ensures var d := env.imageDefaults(m);
      var s := StageSettings(env, Some(m), o, output);
      && s.width == (if Truthy(o.width) then Some(IntCast(o.width.value)) else d.width)
      && s.height == (if Truthy(o.height) then Some(IntCast(o.height.value)) else d.height)
      && s.rotation == (if Truthy(o.rotation) then Some(IntCast(o.rotation.value)) else d.rotation)
      && s.offsetX == (if Truthy(o.offsetX) then Some(IntCast(o.offsetX.value)) else d.offsetX)
      && s.offsetY == (if Truthy(o.offsetY) then Some(IntCast(o.offsetY.value)) else d.offsetY)
      && s.dither == (if o.dither then Some(true) else d.dither)
      && (Truthy(o.format) ==> s.format == o.format)
      && (Truthy(o.colors) ==> s.colors == Some(IntCast(o.colors.value)))
      && (Truthy(o.bitDepth) ==> s.bitDepth == Some(IntCast(o.bitDepth.value)))
      && s.outputPath == (if Truthy(output) then output else d.outputPath)
  {
    var base := Overlay(Unset, env.imageDefaults(m));
    ModelDefaultsThenOptions(env, m, o);
    FalsyOptionKeepsSetting(base, o, env.paletteColors);
    TruthyOptionIsFinal(base, o, env.paletteColors);
  }
}
