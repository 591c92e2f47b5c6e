/** The exceptions the commands raise, each with the message it carries. */
module Errors {
  import Php

  datatype Failure =
    | EmptyColormap                                   // parseColormap found no colour
    | PaletteWithoutColors(paletteId: string)         // the palette's colour list is null
    | InvalidModel(name: string, available: seq<string>)
    | InvalidTimezone(timezone: string)
    | InputNotFound(path: string)                     // getHtmlContent: not a URL and no such file
    | ReadFailed(path: string)                        // getHtmlContent: the file could not be read
    | FetchFailed(url: string)                        // getHtmlContent: the URL could not be fetched

  /** The exception's message, as the user reads it after the command's failure prefix. */
  function Message(f: Failure): string {
    match f
    case EmptyColormap => "Colormap cannot be empty"
    case PaletteWithoutColors(id) => "Palette '" + id + "' has no colors defined"
    case InvalidModel(name, available) =>
      "Invalid model name: " + name + ". Available models: " + Php.Implode(", ", available)
    case InvalidTimezone(tz) => "Invalid timezone: " + tz
    case InputNotFound(path) => "Input file not found: " + path
    case ReadFailed(path) => "Failed to read input file: " + path
    case FetchFailed(url) => "Failed to fetch content from URL: " + url
  }
}
