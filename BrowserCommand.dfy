/**
 * The `browser` command: render the page with a browser stage, to the given
 * output path or to one derived from the input path.
 */
module BrowserCommand {
  import opened Wrappers
  import opened Php
  import opened Errors
  import opened Stages
  import opened Models

  // ---------------------------------------------------------------------------
  // pathinfo() on a POSIX path

  /** `s` without the run of `c` at its end. */
  function StripTrailing(c: char, s: string): (r: string)
    ensures |r| <= |s| && r == s[..|r|]
    ensures r == [] || r[|r| - 1] != c
    ensures forall i :: |r| <= i < |s| ==> s[i] == c
  {
    if s != [] && s[|s| - 1] == c then StripTrailing(c, s[..|s| - 1]) else s
  }

  /** The position of the last `c` in `s`. */
  function LastIndex(c: char, s: string): (r: Option<nat>)
    ensures r.None? <==> c !in s
    ensures r.Some? ==> r.value < |s| && s[r.value] == c && c !in s[r.value + 1..]
  {
    if s == [] then None
    else if s[|s| - 1] == c then Some(|s| - 1)
    else
      var r := LastIndex(c, s[..|s| - 1]);
      assert s == s[..|s| - 1] + [s[|s| - 1]];
      if r.Some? then
        assert s[r.value + 1..] == s[..|s| - 1][r.value + 1..] + [s[|s| - 1]];
        r
      else r
  }

  /** A `c` with no other `c` after it is the last one. */
  lemma LastIndexAt(c: char, s: string, k: nat)
    requires k < |s| && s[k] == c && c !in s[k + 1..]
    ensures LastIndex(c, s) == Some(k)
  {
    assert s[k] in s;
  }

  /**
   * pathinfo()'s "dirname", with the command's "." fallback when it is
   * missing: trailing slashes and the last component are dropped, then the
   * slashes before it; "." when no slash is left, "/" when only slashes were.
   */
  function Dirname(path: string): (r: string)
    ensures r != [] && (r == "/" || r[|r| - 1] != '/')
    ensures '/' !in path ==> r == "."
    ensures r == "." || (|r| <= |path| && r == path[..|r|])
  {
    if path == "" then "."
    else
      var a := StripTrailing('/', path);
      if a == "" then "/"
      else
        match LastIndex('/', a)
        case None => "."
        case Some(i) =>
          var d := StripTrailing('/', a[..i]);
          if d == "" then "/" else d
  }

  /** pathinfo()'s "basename": the last component, trailing slashes ignored. */
  function Basename(path: string): (r: string)
    ensures '/' !in r
  {
    var a := StripTrailing('/', path);
    match LastIndex('/', a)
    case None => a
    case Some(i) => a[i + 1..]
  }

  /** pathinfo()'s "filename": the basename without its last extension. */
  function Filename(path: string): (r: string)
    ensures '/' !in r
    ensures '.' !in Basename(path) ==> r == Basename(path)
    ensures '.' in Basename(path) ==>
      var b := Basename(path);
      |r| < |b| && r == b[..|r|] && b[|r|] == '.' && '.' !in b[|r| + 1..]
  {
    var b := Basename(path);
    match LastIndex('.', b)
    case None => b
    case Some(i) => b[..i]
  }

  /** generateOutputPath: beside the input, named after it, ending in "_browser.png". */
  function GenerateOutputPath(input: string): (r: string)
    ensures |r| >= 12 && r[|r| - 12..] == "_browser.png"
  {
    Dirname(input) + "/" + Filename(input) + "_browser.png"
  }

  /** A path of a directory and a file name splits back into the two. */
  lemma SplitPath(dir: string, name: string)
    requires dir != "" && dir[|dir| - 1] != '/'
    requires name != "" && '/' !in name
    ensures Dirname(dir + "/" + name) == dir
    ensures Basename(dir + "/" + name) == name
  {
    var p := dir + "/" + name;
    assert p[|p| - 1] == name[|name| - 1];
    assert StripTrailing('/', p) == p;
    assert p[|dir|] == '/';
    assert p[|dir| + 1..] == name;
    LastIndexAt('/', p, |dir|);
    assert p[..|dir|] == dir;
  }

  /** The basename of a path without a slash is the path itself. */
  lemma BasenameWithoutSlash(name: string)
    requires '/' !in name
    ensures Basename(name) == name
  {
    if name != "" {
      assert StripTrailing('/', name) == name;
    }
  }

  /** Only the last extension is dropped: "report.v2.html" becomes "report.v2". */
  lemma FilenameDropsLastExtension(stem: string, ext: string)
    requires '/' !in stem && '/' !in ext && '.' !in ext
    ensures Filename(stem + "." + ext) == stem
  {
    var b := stem + "." + ext;
    BasenameWithoutSlash(b);
    assert b[|stem|] == '.';
    assert b[|stem| + 1..] == ext;
    LastIndexAt('.', b, |stem|);
    assert b[..|stem|] == stem;
  }

  /**
   * The derived path keeps the input's directory and its file name less the
   * last extension: "pages/report.v2.html" gives "pages/report.v2_browser.png".
   */
  lemma OutputBesideInput(dir: string, stem: string, ext: string)
    requires dir != "" && dir[|dir| - 1] != '/'
    requires '/' !in stem && '/' !in ext && '.' !in ext
    ensures GenerateOutputPath(dir + "/" + stem + "." + ext) == dir + "/" + stem + "_browser.png"
  {
    var name := stem + "." + ext;
    assert dir + "/" + stem + "." + ext == dir + "/" + name;
    SplitPath(dir, name);
    FilenameDropsLastExtension(stem, ext);
    var b := dir + "/" + name;
    assert Filename(b) == stem by {
      assert Basename(b) == Basename(name) by { BasenameWithoutSlash(name); }
    }
  }

  /** An input without a directory gives a path in the current directory: "./<filename>_browser.png". */
  lemma OutputInCurrentDirectory(input: string)
    requires '/' !in input
    ensures GenerateOutputPath(input) == "./" + Filename(input) + "_browser.png"
  {
    if input != "" {
      assert StripTrailing('/', input) == input;
    }
  }

  /**
   * A file name without an extension is kept whole: "pages/index" gives
   * "pages/index_browser.png".
   */
  lemma OutputWithoutExtension(dir: string, name: string)
    requires dir != "" && dir[|dir| - 1] != '/'
    requires name != "" && '/' !in name && '.' !in name
    ensures GenerateOutputPath(dir + "/" + name) == dir + "/" + name + "_browser.png"
  {
    SplitPath(dir, name);
  }

  // ---------------------------------------------------------------------------
  // handle

  datatype Options = Options(input: Option<string>, output: Option<string>, model: Option<string>)

  /** How handle ends; Rendering is the browser stage about to render, and where its picture goes. */
  datatype Run =
    | InputRequired
    | Failed(failure: Failure)
    | Rendering(stage: BrowserSettings, output: string)

  /** Where the picture goes: --output verbatim when truthy, the derived path otherwise. */
  function OutputPath(o: Options): string
    requires o.input.Some?
  {
    if Truthy(o.output) then o.output.value else GenerateOutputPath(o.input.value)
  }

  /** What handle does, given what reading the input produced (the page, or the exception). */
  function Outcome(env: Environment, o: Options, content: Result<string, Failure>): Run {
    if !Truthy(o.input) then InputRequired
    else
      match content
      case Failure(e) => Failed(e)
      case Success(html) =>
        match ResolveModel(env.modelCases, o.model)
        case Failure(e) => Failed(e)
        case Success(model) => Rendering(BrowserSettings(html, None, model), OutputPath(o))
  }

  /** handle: the stage gets the page and the model; $output is replaced by the derived path when falsy. */
  method Handle(env: Environment, o: Options, content: Result<string, Failure>) returns (run: Run)
    ensures run == Outcome(env, o, content)
  {
    var output := o.output;
    if !Truthy(o.input) {
      return InputRequired;
    }
    if content.Failure? {
      return Failed(content.error);
    }
    var stage := new BrowserStage();
    stage.SetHtml(content.value);
    if Truthy(o.model) {
      var resolved := GetModel(env.modelCases, o.model.value);
      if resolved.Failure? {
        return Failed(resolved.error);
      }
      stage.ConfigureFromModel(resolved.value);
    }
    if !Truthy(output) {
      output := Some(GenerateOutputPath(o.input.value));
    }
    run := Rendering(stage.Snapshot(), output.value);
  }

  /**
   * A truthy --output is used verbatim; otherwise (absent, "" or "0") the
   * picture goes beside the input, ending in "_browser.png".
   */
  lemma ExplicitOutputKept(env: Environment, o: Options, content: Result<string, Failure>)
    requires Outcome(env, o, content).Rendering?
    ensures var out := Outcome(env, o, content).output;
      && (Truthy(o.output) ==> out == o.output.value)
      && (!Truthy(o.output) ==> out == GenerateOutputPath(o.input.value) && out[|out| - 12..] == "_browser.png")
  {
  }

  /** An unknown model stops the command with the invalid-model exception, before anything is rendered. */
  lemma UnknownModelFails(env: Environment, o: Options, html: string)
    requires Truthy(o.input) && Truthy(o.model) && o.model.value !in env.modelCases
    ensures Outcome(env, o, Success(html)) == Failed(InvalidModel(o.model.value, env.modelCases))
  {
  }
}
