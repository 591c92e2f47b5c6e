# trmnl-pipeline-cmd command layer, in Dafny

This models the command layer of `trmnl-pipeline-cmd`, a console tool that turns HTML pages and images into pictures for TRMNL e-ink displays. It has three commands:

- `image` configures an image stage from an optional device model and the command-line options, then hands it the input file.
- `browser` renders a page with a browser stage, to `--output` or to a path derived from the input.
- `pipeline` chains a browser stage and an image stage in a pipeline.

The model covers what the commands decide before any rendering happens:

- which option wins;
- how a `--colormap` string is tokenised;
- how a palette id is resolved;
- the order in which the device model's defaults and the user's options reach the image stage;
- how the model name is checked and what its error says;
- where the browser output goes;
- which exception or early return each `handle` ends in.

PHP's runtime semantics that these decisions rest on are written out in the `Php` module:

- `empty()` and truthiness, including `"0"`;
- `trim()`;
- `explode()` and `implode()`;
- the `(int)` cast with 64-bit saturation (for digit runs a double can hold).

The stage library is represented by classes that record the settings they are given:

- `Stages.ImageStage` and `Stages.BrowserStage` (fields updated in place);
- `Stages.Pipeline` (its stage list grows with `Pipe`).

The library's data and the runtime's lists are parameters, grouped in `Stages.Environment`:

- the model enumeration's values;
- each model's image defaults;
- each palette's colour list;
- the known time zones.

Each `handle` is a method proved equal to a function `Outcome`. The lemmas state the commands' promises about `Outcome`.

Modules, one per file:

- `Wrappers`: Option and Result.
- `Php`: the runtime semantics listed above.
- `Errors`: the exceptions and their messages.
- `Stages`: the library classes.
- `Colormap`: parseColormap, getPaletteColors and getColormap.
- `Models`: getModel.
- `Parameters`: applyImageParameters.
- `ImageCommand`, `PipelineCommand` and `BrowserCommand`: each command's `handle`.

Three behaviours of the code differ from what the option help texts suggest, and the model follows the code:

- A colour-map entry is not checked to be a hex colour: any trimmed token that is not empty is kept.
- A palette whose colour list is empty (not null) is accepted, as an empty colour map.
- A `--colormap` of "0" is falsy, so the palette option is used instead.

## Model

| member | source | states |
|---|---|---|
| Php.Trim | app/Commands/ImageCommand.php:187 | trim() returns one contiguous stretch of the input. Everything cut before and after it is a space, tab, newline, carriage return, NUL or vertical tab, and the stretch has none of these at either end. |
| Php.TrimInfix | app/Commands/ImageCommand.php:187 | Stripping the leading run and then the trailing run of strippable characters leaves one stretch of the input, with only strippable characters cut on either side. |
| Php.IsEmpty | app/Commands/ImageCommand.php:188 | PHP's empty() on a string: true for "" and "0" only. |
| Php.Truthy | app/Commands/ImageCommand.php:93-127 | An option is truthy when it is given and not empty(). Used for every `if ($this->option(...))` test. |
| Php.Implode | app/Commands/ImageCommand.php:205 | implode(): the pieces joined with the glue between neighbours. Its properties are stated by Php.ImplodeAt, Php.ImplodeExplode and Php.ExplodeImplode. |
| Php.Explode | app/Commands/ImageCommand.php:187 | explode(',') gives one more piece than there are commas. No piece holds a comma, and every character of a piece comes from the input. |
| Php.ImplodeExplode | app/Commands/ImageCommand.php:187 | Joining explode()'s pieces with the delimiter gives back the input string. |
| Php.ExplodeImplode | app/Commands/ImageCommand.php:187 | explode() recovers a non-empty list of pieces that implode() joined, provided no piece holds the delimiter. (The empty list joins to "", which explodes to [""].) |
| Php.ImplodeAt | app/Commands/ImageCommand.php:205 | Every piece appears verbatim in implode()'s result, at its computed offset. |
| Php.IntCast | app/Commands/ImageCommand.php:97-123 | The (int) cast of an option value always lies within PHP's 64-bit integer range. |
| Php.IntCastDecimal | app/Commands/ImageCommand.php:97-123 | The (int) cast reads back every 64-bit integer from its decimal notation. |
| Php.DecimalTruthy | app/Commands/ImageCommand.php:97 | A number written in decimal is a truthy option exactly when it is not zero. |
| Colormap.KeepNonEmpty | app/Commands/ImageCommand.php:188 | array_filter with !empty() keeps only non-empty entries of the input. It yields nothing exactly when every entry is "" or "0". |
| Colormap.KeepNonEmptySelects | app/Commands/ImageCommand.php:188-194 | The kept entries are exactly the entries that are not empty, in their original order. The recorded positions are strictly increasing. |
| Colormap.ParseColormap | app/Commands/ImageCommand.php:185-195 | The parse fails, with "Colormap cannot be empty", exactly when every trimmed token is "" or "0". Otherwise it returns between 1 and (number of commas + 1) colours, each non-empty, trimmed and comma-free. |
| Colormap.ParseColormapSelects | app/Commands/ImageCommand.php:187-194 | The parsed colours are exactly the trimmed tokens that are not empty, in left-to-right order. |
| Colormap.BlankColormapRejected | app/Commands/ImageCommand.php:190-192 | A colormap made only of commas and blanks is refused as empty. |
| Colormap.ParseJoinedColors | app/Commands/ImageCommand.php:185-195 | Parsing a non-empty list of colours joined with "," gives the same colours back, when each is non-empty, not "0", trimmed and comma-free. (The empty list joins to "", which is refused as empty.) |
| Colormap.GetPaletteColors | app/Commands/ImageCommand.php:171-180 | Succeeds exactly when the palette has a colour list, and returns that list. Otherwise it fails with PaletteWithoutColors for that id. |
| Colormap.GetColormap | app/Commands/ImageCommand.php:151-166 | No colour map exactly when neither option is truthy. A truthy --colormap gives a non-empty colour list or "Colormap cannot be empty" (Colormap.ColormapWins: the parsed colours). Otherwise a truthy --palette gives exactly its colour list, or PaletteWithoutColors when it has none. |
| Colormap.PaletteColorsReturned | app/Commands/ImageCommand.php:161-163 | Without a truthy --colormap, a truthy --palette that has colours yields exactly its colour list. |
| Colormap.ColormapWins | app/Commands/ImageCommand.php:156-159 | With a truthy --colormap, the palette option is ignored. The result is the parsed colormap or its error. |
| Colormap.NoColormapIffNoOption | app/Commands/ImageCommand.php:161-165 | There is no colour map exactly when neither --palette nor --colormap is truthy. |
| Colormap.PaletteWithoutColorsFails | app/Commands/ImageCommand.php:171-177 | A palette whose colour list is null fails with "Palette '<id>' has no colors defined". |
| Models.Find | app/Commands/ImageCommand.php:203 | Model::from finds the first enumeration case with the given value. It finds none exactly when the value is not a case. |
| Models.GetModel | app/Commands/ImageCommand.php:200-207 | getModel succeeds exactly when the name is a case value, and returns that case. Otherwise it raises InvalidModel with the name and the case list. |
| Models.ResolveModel | app/Commands/ImageCommand.php:65-68 | The model is looked up only when --model is truthy. Resolution fails exactly when a truthy name is not a case value, and then with InvalidModel naming the input and the case list. |
| Models.InvalidModelMessageListsAll | app/Commands/BrowserCommand.php:118-124 | The invalid-model message contains the rejected name. It contains every case value, in declaration order, each at its offset after "Available models: ". |
| Parameters.NumericOption | app/Commands/ImageCommand.php:97-123 | A numeric option typed as a 64-bit number sets the setting to that number, unless it is zero, which leaves the setting unchanged. |
| Parameters.ZeroSpellings | app/Commands/ImageCommand.php:97-99 | "0" is falsy and leaves the setting unchanged, while "00" is truthy and sets it to 0. |
| Parameters.UserOverrides | app/Commands/ImageCommand.php:93-127 | The option setters never touch the colour map or the output path. |
| Parameters.ColormapFill | app/Commands/ImageCommand.php:131-145 | The colour-map step sets the colour map. It changes nothing but the colour map, colour count, format and bit depth. |
| Parameters.AfterParameters | app/Commands/ImageCommand.php:91-146 | After applyImageParameters the output path is as before. The colour map is the resolved one when one was resolved, and otherwise as before. |
| Parameters.ApplyFormatAndSize | app/Commands/ImageCommand.php:93-103 | Format, width and height are written to the stage only when their options are truthy. Nothing else changes. |
| Parameters.ApplyRotationAndDepth | app/Commands/ImageCommand.php:105-115 | Rotation, colour count and bit depth are written to the stage only when their options are truthy. |
| Parameters.ApplyOffsetsAndDither | app/Commands/ImageCommand.php:117-127 | The offsets are written only when truthy; dithering is switched on only by the flag. |
| Parameters.ApplyOptions | app/Commands/ImageCommand.php:93-127 | The stage's new settings are the user's truthy options written over the old ones. |
| Parameters.ApplyColormap | app/Commands/ImageCommand.php:131-145 | The stage gets the colour map. Colour count (the map's size), "png" and bit depth 2 fill only the options the user left falsy. |
| Parameters.ApplyImageParameters | app/Commands/ImageCommand.php:91-146 | Raises exactly the colour-map resolution's exception. Otherwise the stage's new settings are the overrides followed by the colour-map fill. |
| Parameters.TruthyOptionIsFinal | app/Commands/ImageCommand.php:93-145 | Every truthy option ends up as the stage's setting, whether or not a colour map was resolved. |
| Parameters.FalsyOptionKeepsSetting | app/Commands/ImageCommand.php:93-145 | An absent, "" or "0" option leaves its setting as it was. For the colour count, format and bit depth this holds whenever no colour map was resolved, whether none was asked for or its resolution failed. The output path is never touched. |
| Parameters.ColormapFillsOnlyUnset | app/Commands/ImageCommand.php:131-145 | With a resolved colour map, the colour count, format and bit depth each take the user's truthy option, else the colour-map default. |
| Parameters.ColormapStepTouchesOnlyItsFields | app/Commands/ImageCommand.php:131-145 | The colour-map step changes only the colour map, colour count, format and bit depth. |
| Parameters.ModelDefaultsThenOptions | app/Commands/ImageCommand.php:65-70 | With a model, each setting is the user's truthy option, else the colour-map default, else the model's default. |
| Parameters.ModelStageSettings | app/Commands/ImageCommand.php:63-74 | A stage configured from a model, then the options, then --output: every truthy option is final, format, colour count and bit depth included. Geometry and dithering otherwise keep the model's values. The output path is --output when truthy, else the model's. |
| Stages.ImageStage.ConfigureFromModel | app/Commands/ImageCommand.php:67 | The model's defaults are written over the stage's current settings. Settings the model does not define stay. |
| Php.Saturate | app/Commands/ImageCommand.php:98 | A cast value beyond PHP's 64-bit range saturates at the nearer bound; a value inside the range is kept. |
| Colormap.TrimAll | app/Commands/ImageCommand.php:187 | array_map('trim') keeps the number of pieces and trims each one in place. |
| Colormap.Tokens | app/Commands/ImageCommand.php:187 | The colormap string yields one token per comma plus one. |
| Colormap.KeptTokensClean | app/Commands/ImageCommand.php:187-188 | Every token that survives the filter is trimmed and holds no comma. |
| Errors.Message | app/Commands/ImageCommand.php:176-205 | The exception texts, word for word. The texts thrown at app/Commands/PipelineCommand.php:133-145 and :220 are the same. |
| Stages.ImageStage.constructor | app/Commands/ImageCommand.php:63 | A new image stage has no setting of its own. |
| Stages.ImageStage.SetFormat | app/Commands/ImageCommand.php:94 | The format setter changes the format and nothing else. |
| Stages.ImageStage.SetWidth | app/Commands/ImageCommand.php:98 | The width setter changes the width and nothing else. |
| Stages.ImageStage.SetHeight | app/Commands/ImageCommand.php:102 | The height setter changes the height and nothing else. |
| Stages.ImageStage.SetRotation | app/Commands/ImageCommand.php:106 | The rotation setter changes the rotation and nothing else. |
| Stages.ImageStage.SetColors | app/Commands/ImageCommand.php:110 | The colour-count setter changes the colour count and nothing else. |
| Stages.ImageStage.SetBitDepth | app/Commands/ImageCommand.php:114 | The bit-depth setter changes the bit depth and nothing else. |
| Stages.ImageStage.SetOffsetX | app/Commands/ImageCommand.php:118 | The horizontal-offset setter changes that offset and nothing else. |
| Stages.ImageStage.SetOffsetY | app/Commands/ImageCommand.php:122 | The vertical-offset setter changes that offset and nothing else. |
| Stages.ImageStage.SetDither | app/Commands/ImageCommand.php:126 | The dither setter switches dithering and changes nothing else. |
| Stages.ImageStage.SetColormap | app/Commands/ImageCommand.php:132 | The colour-map setter changes the colour map and nothing else. |
| Stages.ImageStage.SetOutputPath | app/Commands/ImageCommand.php:73 | The output-path setter changes the output path and nothing else. |
| Stages.BrowserStage.constructor | app/Commands/BrowserCommand.php:54 | A new browser stage has no page, no time zone and no model. |
| Stages.BrowserStage.SetHtml | app/Commands/BrowserCommand.php:55 | The stage gets the page; nothing else changes. |
| Stages.BrowserStage.SetTimezone | app/Commands/PipelineCommand.php:224-228 | The stage gets the time zone; nothing else changes. |
| Stages.BrowserStage.ConfigureFromModel | app/Commands/BrowserCommand.php:59 | The stage records the device model; nothing else changes. |
| Stages.Pipeline.constructor | app/Commands/PipelineCommand.php:67 | A new pipeline has no model and no stages. |
| Stages.Pipeline.SetModel | app/Commands/PipelineCommand.php:72 | The pipeline records the model; its stages are unchanged. |
| PipelineCommand.NewBrowserStage | app/Commands/PipelineCommand.php:80-86 | The new browser stage holds the page. An unknown truthy time zone raises "Invalid timezone"; otherwise the stage holds the zone exactly when it was given. |
| PipelineCommand.NewImageStage | app/Commands/PipelineCommand.php:91-103 | The new image stage is configured from the model, then from the options, then given the output path. It raises exactly the colour-map resolution's exception. |
| Stages.Pipeline.Pipe | app/Commands/PipelineCommand.php:88 | A piped stage is appended after all earlier stages; the model is unchanged. |
| ImageCommand.Handle | app/Commands/ImageCommand.php:44-86 | handle ends as Outcome says: first the input check, then the file check, then the model, then the options, then the output path. |
| ImageCommand.InputRequiredFirst | app/Commands/ImageCommand.php:50-54 | The command returns "Input is required" exactly when --input is falsy. |
| ImageCommand.ModelThenOptions | app/Commands/ImageCommand.php:65-70 | In a configured stage, the model was valid. Each geometry and dither setting is the truthy option, else the model's default. |
| ImageCommand.UnknownModelFails | app/Commands/ImageCommand.php:65-67 | An unknown model fails with InvalidModel naming the input and all case values. |
| ImageCommand.OutputPathOnlyWhenGiven | app/Commands/ImageCommand.php:72-74 | A truthy --output becomes the stage's output path. Without it and without a model, no output path is set. |
| PipelineCommand.ApplyTimezone | app/Commands/PipelineCommand.php:214-229 | An unknown zone raises "Invalid timezone" and leaves the stage unchanged. A known zone is set on the browser stage. |
| PipelineCommand.Views | app/Commands/PipelineCommand.php:88-105 | The pipeline's view has one entry per stage. |
| PipelineCommand.Handle | app/Commands/PipelineCommand.php:49-120 | handle ends as Outcome says: input, content, model, browser stage with time zone, image stage from model then options, two stages piped in order. |
| PipelineCommand.UnknownModelFails | app/Commands/PipelineCommand.php:69-72 | An unknown model fails with InvalidModel naming the input and all case values, before any stage is configured. |
| PipelineCommand.InputRequiredFirst | app/Commands/PipelineCommand.php:55-59 | The command returns "Input is required" exactly when --input is falsy. |
| PipelineCommand.BrowserThenImage | app/Commands/PipelineCommand.php:80-105 | A ready pipeline holds exactly two stages: first the browser stage with the fetched page, then the image stage. |
| PipelineCommand.TimezoneValidated | app/Commands/PipelineCommand.php:84-86 | A truthy unknown time zone fails with "Invalid timezone: <zone>". A ready browser stage carries the zone exactly when it was given. |
| PipelineCommand.ColormapWinsInPipeline | app/Commands/PipelineCommand.php:234-249 | With a truthy --colormap, a ready image stage holds the parsed colormap, whatever --palette says. |
| PipelineCommand.ColormapDefaultsInPipeline | app/Commands/PipelineCommand.php:193-208 | In the pipeline, the colour-map defaults fill only the options the user left falsy. |
| PipelineCommand.ReadyImageStage | app/Commands/PipelineCommand.php:91-105 | A pipeline that is ready holds the resolved model, and its image stage has the settings of that model, then the options, then --output. |
| PipelineCommand.ModelBeforeOptions | app/Commands/PipelineCommand.php:93-103 | The image stage is configured from the model before the options. Each truthy option is final, format, colour count and bit depth included. Width, height, rotation, offsets and dithering without a truthy option are the model's. A truthy --output is the output path. |
| BrowserCommand.StripTrailing | app/Commands/BrowserCommand.php:132 | Removes exactly the run of the character at the end of the string. |
| BrowserCommand.LastIndex | app/Commands/BrowserCommand.php:132 | Finds the last occurrence of the character, and none exactly when it is absent. |
| BrowserCommand.Dirname | app/Commands/BrowserCommand.php:132-134 | pathinfo()'s dirname is never empty and has no trailing slash unless it is "/". It is "." for a path without a slash. Otherwise it is "." or a prefix of the path; "a/", for instance, gives ".". |
| BrowserCommand.Basename | app/Commands/BrowserCommand.php:132 | pathinfo()'s basename holds no slash. |
| BrowserCommand.Filename | app/Commands/BrowserCommand.php:133 | pathinfo()'s filename holds no slash. A basename without '.' is kept whole. Otherwise the filename is the basename up to its last '.', which is dropped with everything after it. |
| BrowserCommand.GenerateOutputPath | app/Commands/BrowserCommand.php:130-137 | The derived output path always ends in "_browser.png". |
| BrowserCommand.SplitPath | app/Commands/BrowserCommand.php:132-134 | A path made of a directory and a file name gives that directory as dirname and that name as basename. |
| BrowserCommand.FilenameDropsLastExtension | app/Commands/BrowserCommand.php:133 | Only the last extension is dropped: "report.v2.html" becomes "report.v2". |
| BrowserCommand.OutputBesideInput | app/Commands/BrowserCommand.php:130-137 | The output sits in the input's directory, named after the input without its last extension, plus "_browser.png". |
| BrowserCommand.OutputWithoutExtension | app/Commands/BrowserCommand.php:130-137 | A file name without an extension is kept whole: dir + "/" + name gives dir + "/" + name + "_browser.png". |
| BrowserCommand.OutputInCurrentDirectory | app/Commands/BrowserCommand.php:130-137 | An input with no slash gives "./<filename>_browser.png". |
| BrowserCommand.Handle | app/Commands/BrowserCommand.php:34-84 | handle ends as Outcome says: the input check, then the content, then the model, then --output or the derived path. |
| BrowserCommand.UnknownModelFails | app/Commands/BrowserCommand.php:56-59 | An unknown model fails with InvalidModel naming the input and all case values, before anything is rendered. |
| BrowserCommand.ExplicitOutputKept | app/Commands/BrowserCommand.php:62-64 | A truthy --output is used verbatim. Otherwise the picture goes to the derived path ending in "_browser.png". |

## Left out

- Image processing and rendering are not modelled: the raster work of the image stage, the browser stage's rendering through Browsershot, and the pipeline's `process()`. A stage records the settings it was given, and a command's run ends where that work would start.
- Stages.ImageStage.ConfigureFromModel: the library's model defaults are an abstract function from model to settings, written over the current settings. The model does not know which settings the library defines for each device.
- Stages.BrowserStage.ConfigureFromModel: only records the model. What the browser stage derives from it (viewport size and so on) lives in the library.
- File and network access become parameters:
  - the file existence check of the `image` command is a boolean;
  - the page content that `getHtmlContent` produces (URL fetch, file read and their three exceptions) is a `Result`.
  - The URL test itself (`filter_var`) is therefore not modelled.
- Nothing happens after rendering:
  - copying the rendered file to the output and removing the temporary file are not modelled;
  - neither is the copy failure's exception.
  - The `pipeline` command's temporary-file cleanup in `finally` never runs, because `$tempFile` is always null; it is left out.
- The console is not modelled: `info`, `line` and `error` output, the "failed:" prefixes and `exit(1)`. A run ends in `Failed(e)`, and `Errors.Message` gives the exception's text.
- `BrowsershotHelper::getBinPath` and the empty `schedule` methods are left out.
- The time-zone list (`timezone_identifiers_list`) is an abstract set. The `method_exists` fallback to `setBrowsershotOption('timezoneId', …)` sets the same zone, so both branches are modelled as one setting.
- `PaletteData::getById` is an abstract function from id to an optional colour list. The library's own behaviour for unknown ids is not modelled.
- Php.IntCast: strings that PHP reads as floating point (an exponent or a fraction, such as "1e3") are cast by reading the leading decimal digits only. PHP would convert through a double. The 64-bit saturation is modelled.
- Php.IntCast: a digit run too long for a double (more than about 309 digits) overflows to infinity in PHP, and PHP's capped conversion turns a non-finite double into 0. The model saturates it at the 64-bit bound instead, because the exact overflow threshold depends on the double rounding of the digits.
- BrowserCommand.Dirname and BrowserCommand.Basename model POSIX `pathinfo()`. Windows drive letters and backslashes are not modelled.
- Multibyte locale handling in `basename()` is not modelled. Strings are sequences of characters.
