/**
 * The interface of the stage library the commands drive. The raster work the
 * stages do is not modelled; a stage here records the settings it was given.
 */
module Stages {
  import opened Wrappers

  /** The settings of an image stage; None leaves the library's own default in force. */
  datatype Settings = Settings(
    format: Option<string>,
    width: Option<int>,
    height: Option<int>,
    rotation: Option<int>,
    colors: Option<int>,
    bitDepth: Option<int>,
    offsetX: Option<int>,
    offsetY: Option<int>,
    dither: Option<bool>,
    colormap: Option<seq<string>>,
    outputPath: Option<string>)

  /** A freshly constructed image stage: nothing set yet. */
  const Unset := Settings(None, None, None, None, None, None, None, None, None, None, None)

  function Pick<T>(over: Option<T>, base: Option<T>): Option<T> {
    if over.Some? then over else base
  }

  /** The fields `defaults` defines written over `s`; every other field of `s` stays. */
  function Overlay(s: Settings, defaults: Settings): Settings {
    Settings(
      Pick(defaults.format, s.format), Pick(defaults.width, s.width),
      Pick(defaults.height, s.height), Pick(defaults.rotation, s.rotation),
      Pick(defaults.colors, s.colors), Pick(defaults.bitDepth, s.bitDepth),
      Pick(defaults.offsetX, s.offsetX), Pick(defaults.offsetY, s.offsetY),
      Pick(defaults.dither, s.dither), Pick(defaults.colormap, s.colormap),
      Pick(defaults.outputPath, s.outputPath))
  }

  /**
   * What the commands need from the library and the PHP runtime, as data:
   * the values of the device-model enumeration in declaration order, the
   * image-stage defaults of each model, the colour list of each palette id
   * (None where the palette has no colour list) and the known time zones.
   */
  datatype Environment = Environment(
    modelCases: seq<string>,
    imageDefaults: string -> Settings,
    paletteColors: string -> Option<seq<string>>,
    timezones: set<string>)

  class ImageStage {
    var format: Option<string>
    var width: Option<int>
    var height: Option<int>
    var rotation: Option<int>
    var colors: Option<int>
    var bitDepth: Option<int>
    var offsetX: Option<int>
    var offsetY: Option<int>
    var dither: Option<bool>
    var colormap: Option<seq<string>>
    var outputPath: Option<string>

    function Snapshot(): Settings
      reads this
    {
      Settings(format, width, height, rotation, colors, bitDepth, offsetX, offsetY, dither, colormap, outputPath)
    }

    constructor ()
      ensures Snapshot() == Unset
    {
      format, width, height, rotation := None, None, None, None;
      colors, bitDepth, offsetX, offsetY := None, None, None, None;
      dither, colormap, outputPath := None, None, None;
    }

    /** configureFromModel: the model's defaults are written over the current settings. */
    method ConfigureFromModel(defaults: Settings)
      modifies this
      ensures Snapshot() == Overlay(old(Snapshot()), defaults)
    {
      format := Pick(defaults.format, format);
      width := Pick(defaults.width, width);
      height := Pick(defaults.height, height);
      rotation := Pick(defaults.rotation, rotation);
      colors := Pick(defaults.colors, colors);
      bitDepth := Pick(defaults.bitDepth, bitDepth);
      offsetX := Pick(defaults.offsetX, offsetX);
      offsetY := Pick(defaults.offsetY, offsetY);
      dither := Pick(defaults.dither, dither);
      colormap := Pick(defaults.colormap, colormap);
      outputPath := Pick(defaults.outputPath, outputPath);
    }

    // The stage's setters; each writes one setting.

    method SetFormat(f: string)
      modifies this
      ensures Snapshot() == old(Snapshot()).(format := Some(f))
    {
      format := Some(f);
    }

    method SetWidth(n: int)
      modifies this
      ensures Snapshot() == old(Snapshot()).(width := Some(n))
    {
      width := Some(n);
    }

    method SetHeight(n: int)
      modifies this
      ensures Snapshot() == old(Snapshot()).(height := Some(n))
    {
      height := Some(n);
    }

    method SetRotation(n: int)
      modifies this
      ensures Snapshot() == old(Snapshot()).(rotation := Some(n))
    {
      rotation := Some(n);
    }

    method SetColors(n: int)
      modifies this
      ensures Snapshot() == old(Snapshot()).(colors := Some(n))
    {
      colors := Some(n);
    }

    method SetBitDepth(n: int)
      modifies this
      ensures Snapshot() == old(Snapshot()).(bitDepth := Some(n))
    {
      bitDepth := Some(n);
    }

    method SetOffsetX(n: int)
      modifies this
      ensures Snapshot() == old(Snapshot()).(offsetX := Some(n))
    {
      offsetX := Some(n);
    }

    method SetOffsetY(n: int)
      modifies this
      ensures Snapshot() == old(Snapshot()).(offsetY := Some(n))
    {
      offsetY := Some(n);
    }

    method SetDither(on: bool)
      modifies this
      ensures Snapshot() == old(Snapshot()).(dither := Some(on))
    {
      dither := Some(on);
    }

    method SetColormap(cm: seq<string>)
      modifies this
      ensures Snapshot() == old(Snapshot()).(colormap := Some(cm))
    {
      colormap := Some(cm);
    }

    method SetOutputPath(path: string)
      modifies this
      ensures Snapshot() == old(Snapshot()).(outputPath := Some(path))
    {
      outputPath := Some(path);
    }
  }

  /** What a browser stage was told: the page, its time zone and its device model. */
  datatype BrowserSettings = BrowserSettings(html: string, timezone: Option<string>, model: Option<string>)

  class BrowserStage {
    var html: string
    var timezone: Option<string>
    var model: Option<string>

    function Snapshot(): BrowserSettings
      reads this
    {
      BrowserSettings(html, timezone, model)
    }

    constructor ()
      ensures Snapshot() == BrowserSettings("", None, None)
    {
      html, timezone, model := "", None, None;
    }

    method SetHtml(page: string)
      modifies this
      ensures Snapshot() == old(Snapshot()).(html := page)
    {
      html := page;
    }

    method SetTimezone(zone: string)
      modifies this
      ensures Snapshot() == old(Snapshot()).(timezone := Some(zone))
    {
      timezone := Some(zone);
    }

    method ConfigureFromModel(m: string)
      modifies this
      ensures Snapshot() == old(Snapshot()).(model := Some(m))
    {
      model := Some(m);
    }
  }

  datatype StageRef = BrowserRef(browser: BrowserStage) | ImageRef(image: ImageStage)

  /** A stage as the pipeline holds it, reduced to its settings. */
  datatype StageView = BrowserView(browserSettings: BrowserSettings) | ImageView(imageSettings: Settings)

  class Pipeline {
    var model: Option<string>
    var stages: seq<StageRef>

    constructor ()
      ensures model == None && stages == []
    {
      model, stages := None, [];
    }

    method SetModel(m: string)
      modifies this
      ensures model == Some(m) && stages == old(stages)
    {
      model := Some(m);
    }

    /** pipe: the stage runs after every stage already in the pipeline. */
    method Pipe(stage: StageRef)
      modifies this
      ensures stages == old(stages) + [stage] && model == old(model)
    {
      stages := stages + [stage];
    }
  }
}
