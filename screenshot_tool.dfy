/** The stand-alone capture utility (scripts/screenshot-tool.ts): the class
    `ScreenshotTool` with its lazily launched browser, the file name and path
    of a capture, the choice between an element and a full-page capture, and
    the page that is closed whatever happens. Puppeteer is not modelled: what
    the tool does to the browser is recorded as an `Action`, and what the
    browser answers comes in as a `World`. */
module ScreenshotTool {
  import opened Common

  // ---------------------------------------------------------------------------
  // File name, path and options
  // ---------------------------------------------------------------------------

  /** The character `.replace(/[:.]/g, '-')` puts at one position. */
  function SanitizedChar(c: char): char
  {
    if c == ':' || c == '.' then '-' else c
  }

  /** `timestamp.replace(/[:.]/g, '-')`: every ':' and '.' becomes '-' and
      every other character stays where it was. */
  function Sanitize(ts: string): (r: string)
    ensures |r| == |ts|
    ensures forall i :: 0 <= i < |ts| ==> r[i] == SanitizedChar(ts[i])
    decreases |ts|
  {
    if ts == [] then [] else [SanitizedChar(ts[0])] + Sanitize(ts[1..])
  }

  /** A sanitised timestamp holds neither ':' nor '.', so it is safe in a
      file name. */
  lemma SanitizeRemovesSeparators(ts: string)
    ensures forall i :: 0 <= i < |Sanitize(ts)| ==> Sanitize(ts)[i] != ':' && Sanitize(ts)[i] != '.'
  {
  }

  /** Sanitising twice is sanitising once. */
  lemma {:induction false} SanitizeIdempotent(ts: string)
    ensures Sanitize(Sanitize(ts)) == Sanitize(ts)
    decreases |ts|
  {
    if ts != [] {
      SanitizeIdempotent(ts[1..]);
      assert Sanitize(ts)[1..] == Sanitize(ts[1..]);
    }
  }

  /** A timestamp that holds neither ':' nor '.' is left as it is. */
  lemma {:induction false} SanitizeKeepsCleanText(ts: string)
    requires forall i :: 0 <= i < |ts| ==> ts[i] != ':' && ts[i] != '.'
    ensures Sanitize(ts) == ts
    decreases |ts|
  {
    if ts != [] {
      SanitizeKeepsCleanText(ts[1..]);
    }
  }

  const DefaultPrefix := "screenshot-"
  const PngSuffix := ".png"

  /** `options.filename || \`screenshot-${timestamp}.png\``: a missing or empty
      file name falls back to the sanitised timestamp. */
  function ChosenFilename(given: Option<string>, timestamp: string): (r: string)
    ensures r != ""
    ensures given.Some? && given.value != "" ==> r == given.value
    ensures given.None? || given.value == "" ==>
      && |r| == |DefaultPrefix| + |timestamp| + |PngSuffix|
      && r[..|DefaultPrefix|] == DefaultPrefix
      && r[|DefaultPrefix|..|DefaultPrefix| + |timestamp|] == Sanitize(timestamp)
      && r[|r| - |PngSuffix|..] == PngSuffix
  {
    if given.Some? && given.value != "" then given.value
    else DefaultPrefix + Sanitize(timestamp) + PngSuffix
  }

  /** Two captures that fall back to the timestamp land on the same file only
      when their timestamps agree outside the ':' and '.' positions. */
  lemma DefaultFilenameDeterminedByTimestamp(t1: string, t2: string)
    requires ChosenFilename(None, t1) == ChosenFilename(None, t2)
    ensures |t1| == |t2|
    ensures forall i :: 0 <= i < |t1| ==> SanitizedChar(t1[i]) == SanitizedChar(t2[i])
  {
    var r := ChosenFilename(None, t1);
    assert Sanitize(t1) == r[|DefaultPrefix|..|DefaultPrefix| + |t1|];
    assert Sanitize(t2) == r[|DefaultPrefix|..|DefaultPrefix| + |t2|];
  }

  /** `ScreenshotOptions`. `wait` and `viewport` only delay or resize the page
      and are left out. */
  datatype Options = Options(
    url: string,
    filename: Option<string>,
    selector: Option<string>,
    fullPage: Option<bool>)

  /** The selector the capture uses: `if (options.selector)` treats a missing
      and an empty selector alike. */
  function SelectorOf(options: Options): (r: Option<string>)
    ensures r.Some? <==> options.selector.Some? && options.selector.value != ""
    ensures r.Some? ==> r.value == options.selector.value
  {
    if options.selector.Some? && options.selector.value != "" then options.selector else None
  }

  /** `options.fullPage ?? true`: only an explicit `false` turns it off. */
  function FullPage(options: Options): (r: bool)
    ensures r <==> options.fullPage != Some(false)
  {
    if options.fullPage.Some? then options.fullPage.value else true
  }

  // ---------------------------------------------------------------------------
  // What the tool does and what the browser answers
  // ---------------------------------------------------------------------------

  datatype Browser = Browser(headless: bool)

  /** An image written to `path`: of the first element matching `selector`, or
      of the page, the whole scrollable page when `fullPage`. */
  datatype Shot = ElementShot(selector: string, path: string) | PageShot(path: string, fullPage: bool)

  datatype Action = Launch(headless: bool) | OpenPage | Write(shot: Shot) | ClosePage | CloseBrowser

  /** What the browser and the file system answer during one capture.
      `loading` covers setting the viewport, the navigation and the waits;
      `found` says whether `page.$(selector)` finds an element. */
  datatype World = World(
    launch: Outcome,
    newPage: Outcome,
    loading: Outcome,
    mkdir: Outcome,
    found: bool,
    capture: Outcome)

  /** The `try` block of `takeScreenshot` with its page open: the writes and
      the path returned, or the Error thrown. */
  datatype Attempt = Attempt(writes: seq<Action>, result: Result<string>)

  function PageWork(root: string, options: Options, timestamp: string, world: World): (a: Attempt)
    ensures a.result.Ok? <==> world.loading.Pass? && world.mkdir.Pass?
                               && (SelectorOf(options).None? || world.found) && world.capture.Pass?
    ensures a.result.Ok? ==> a.result.value == ScreenshotPath(root, ChosenFilename(options.filename, timestamp))
    ensures a.result.Ok? && SelectorOf(options).Some? ==> a.writes == [Write(ElementShot(SelectorOf(options).value, a.result.value))]
    ensures a.result.Ok? && SelectorOf(options).None? ==> a.writes == [Write(PageShot(a.result.value, FullPage(options)))]
    ensures a.result.Err? ==> a.writes == []
    ensures world.loading.Pass? && world.mkdir.Pass? && SelectorOf(options).Some? && !world.found
            ==> a.result == Err("Selector " + SelectorOf(options).value + " not found")
  {
    if world.loading.Fail? then Attempt([], Err(world.loading.error))
    else
      var path := ScreenshotPath(root, ChosenFilename(options.filename, timestamp));
      if world.mkdir.Fail? then Attempt([], Err(world.mkdir.error))
      else
        var selector := SelectorOf(options);
        if selector.Some? && !world.found then Attempt([], Err("Selector " + selector.value + " not found"))
        else if world.capture.Fail? then Attempt([], Err(world.capture.error))
        else
          var shot := if selector.Some? then ElementShot(selector.value, path) else PageShot(path, FullPage(options));
          Attempt([Write(shot)], Ok(path))
  }

  /** The browser field, the actions and the outcome of one capture. */
  datatype Run = Run(browser: Option<Browser>, actions: seq<Action>, result: Result<string>)

  /** `takeScreenshot`: launch a headless browser when none is held, open a
      page, run the `try` block, and close the page in `finally`. */
  function Capture(b: Option<Browser>, root: string, options: Options, timestamp: string, world: World): (r: Run)
    ensures b.Some? ==> r.browser == b
    ensures b.None? ==> r.browser == (if world.launch.Pass? then Some(Browser(true)) else None)
    ensures r.result.Ok? <==> (b.Some? || world.launch.Pass?) && world.newPage.Pass?
                              && PageWork(root, options, timestamp, world).result.Ok?
    ensures r.result.Ok? ==> r.browser.Some?
  {
    var launched :=
      if b.Some? then Run(b, [], Ok(""))
      else if world.launch.Fail? then Run(b, [], Err(world.launch.error))
      else Run(Some(Browser(true)), [Launch(true)], Ok(""));
    if launched.result.Err? then launched
    else if world.newPage.Fail? then launched.(result := Err(world.newPage.error))
    else
      var attempt := PageWork(root, options, timestamp, world);
      Run(launched.browser, launched.actions + [OpenPage] + attempt.writes + [ClosePage], attempt.result)
  }

  /** `close`: a held browser is closed and dropped; without one nothing
      happens. */
  function CloseRun(b: Option<Browser>): (r: Run)
    ensures r.browser == None && r.result.Ok?
    ensures r.actions == (if b.Some? then [CloseBrowser] else [])
  {
    if b.Some? then Run(None, [CloseBrowser], Ok("")) else Run(None, [], Ok(""))
  }

  // ---------------------------------------------------------------------------
  // What a capture guarantees
  // ---------------------------------------------------------------------------

  /** The number of pages `actions` opens and does not close. */
  function OpenPages(actions: seq<Action>): int
    decreases |actions|
  {
    if actions == [] then 0
    else (if actions[0].OpenPage? then 1 else if actions[0].ClosePage? then -1 else 0) + OpenPages(actions[1..])
  }

  lemma {:induction false} OpenPagesAppend(a: seq<Action>, b: seq<Action>)
    ensures OpenPages(a + b) == OpenPages(a) + OpenPages(b)
    decreases |a|
  {
    if a == [] {
      assert a + b == b;
    } else {
      assert (a + b)[1..] == a[1..] + b;
      OpenPagesAppend(a[1..], b);
    }
  }

  /** The page a capture opens is closed on every path, success or Error:
      once opened, the last action closes it, and no page stays open. */
  lemma PageAlwaysClosed(b: Option<Browser>, root: string, options: Options, timestamp: string, world: World)
    ensures var r := Capture(b, root, options, timestamp, world);
      && OpenPages(r.actions) == 0
      && (OpenPage in r.actions ==> r.actions[|r.actions| - 1] == ClosePage)
      && (OpenPage !in r.actions ==> r.result.Err?)
  {
    var r := Capture(b, root, options, timestamp, world);
    var launches: seq<Action> := if b.Some? then [] else [Launch(true)];
    var attempt := PageWork(root, options, timestamp, world);
    if b.None? && world.launch.Fail? {
    } else if world.newPage.Fail? {
      assert r.actions == launches;
    } else {
      assert r.actions == launches + [OpenPage] + attempt.writes + [ClosePage];
      OpenPagesAppend(launches + [OpenPage] + attempt.writes, [ClosePage]);
      OpenPagesAppend(launches + [OpenPage], attempt.writes);
      OpenPagesAppend(launches, [OpenPage]);
    }
  }

  /** A browser is launched, headless, only when none is held; a held
      browser is kept. */
  lemma LaunchOnlyWhenNone(b: Option<Browser>, root: string, options: Options, timestamp: string, world: World)
    ensures var r := Capture(b, root, options, timestamp, world);
      && (b.Some? ==> r.browser == b && Launch(true) !in r.actions && Launch(false) !in r.actions)
      && (b.None? && world.launch.Pass? ==> r.browser == Some(Browser(true)) && r.actions[0] == Launch(true))
      && (b.None? && world.launch.Fail? ==> r == Run(None, [], Err(world.launch.error)))
  {
    var r := Capture(b, root, options, timestamp, world);
    if b.Some? && world.newPage.Pass? {
      var attempt := PageWork(root, options, timestamp, world);
      assert r.actions == [OpenPage] + attempt.writes + [ClosePage];
    }
  }

  /** A capture that returns a path wrote exactly one image, to that path,
      which is the file name chosen under the screenshot directory; the
      element is captured when there is a selector and the page, full or not
      as `fullPage ?? true` says, when there is none. */
  lemma ReturnedPathIsWritten(b: Option<Browser>, root: string, options: Options, timestamp: string, world: World)
    requires Capture(b, root, options, timestamp, world).result.Ok?
    ensures var r := Capture(b, root, options, timestamp, world);
      var path := ScreenshotPath(root, ChosenFilename(options.filename, timestamp));
      && r.result.value == path
      && (SelectorOf(options).Some? ==> Write(ElementShot(SelectorOf(options).value, path)) in r.actions)
      && (SelectorOf(options).None? ==> Write(PageShot(path, FullPage(options))) in r.actions)
      && Writes(r.actions) == 1
  {
    var r := Capture(b, root, options, timestamp, world);
    var launches: seq<Action> := if b.Some? then [] else [Launch(true)];
    var attempt := PageWork(root, options, timestamp, world);
    assert r.actions == launches + [OpenPage] + attempt.writes + [ClosePage];
    WritesAppend(launches + [OpenPage] + attempt.writes, [ClosePage]);
    WritesAppend(launches + [OpenPage], attempt.writes);
    WritesAppend(launches, [OpenPage]);
  }

  /** A selector that matches nothing makes the capture throw
      `Selector <selector> not found` and write nothing. */
  lemma MissingSelectorWritesNothing(b: Option<Browser>, root: string, options: Options, timestamp: string, world: World)
    requires SelectorOf(options).Some? && !world.found
    requires world.loading.Pass? && world.mkdir.Pass?
    ensures var r := Capture(b, root, options, timestamp, world);
      && r.result.Err? && Writes(r.actions) == 0
      && ((b.Some? || world.launch.Pass?) && world.newPage.Pass? ==>
            r.result.error == "Selector " + options.selector.value + " not found")
  {
    var r := Capture(b, root, options, timestamp, world);
    var launches: seq<Action> := if b.Some? then [] else [Launch(true)];
    if (b.Some? || world.launch.Pass?) && world.newPage.Pass? {
      assert r.actions == launches + [OpenPage] + [ClosePage];
      WritesAppend(launches + [OpenPage], [ClosePage]);
      WritesAppend(launches, [OpenPage]);
    }
  }

  /** The number of images `actions` writes. */
  function Writes(actions: seq<Action>): nat
    decreases |actions|
  {
    if actions == [] then 0 else (if actions[0].Write? then 1 else 0) + Writes(actions[1..])
  }

  lemma {:induction false} WritesAppend(a: seq<Action>, b: seq<Action>)
    ensures Writes(a + b) == Writes(a) + Writes(b)
    decreases |a|
  {
    if a == [] {
      assert a + b == b;
    } else {
      assert (a + b)[1..] == a[1..] + b;
      WritesAppend(a[1..], b);
    }
  }

  /** Closing again does nothing. */
  lemma CloseIsIdempotent(b: Option<Browser>)
    ensures CloseRun(CloseRun(b).browser) == Run(None, [], Ok(""))
  {
  }

  // ---------------------------------------------------------------------------
  // The tool object
  // ---------------------------------------------------------------------------

  /** `ScreenshotTool`: the browser it launches lazily, the project root
      every path is built from, and the record of what it did. */
  class Tool {
    const projectRoot: string
    var browser: Option<Browser>
    ghost var actions: seq<Action>

    constructor (root: string)
      ensures projectRoot == root && browser == None && actions == []
    {
      projectRoot := root;
      browser := None;
      actions := [];
    }

    /** `init`: the field is assigned only once the launch succeeds. */
    method Init(headless: bool, launch: Outcome) returns (r: Outcome)
      modifies this
      ensures launch.Fail? ==> r == launch && browser == old(browser) && actions == old(actions)
      ensures launch.Pass? ==> r == Pass && browser == Some(Browser(headless)) && actions == old(actions) + [Launch(headless)]
    {
      if launch.Fail? {
        return launch;
      }
      browser := Some(Browser(headless));
      actions := actions + [Launch(headless)];
      r := Pass;
    }

    /** `takeScreenshot`. */
    method TakeScreenshot(options: Options, timestamp: string, world: World) returns (r: Result<string>)
      modifies this
      ensures var run := Capture(old(browser), projectRoot, options, timestamp, world);
        browser == run.browser && actions == old(actions) + run.actions && r == run.result
    {
      if browser.None? {
        var launched := Init(true, world.launch);
        if launched.Fail? {
          return Err(launched.error);
        }
      }
      ghost var launchedActions := actions;
      if world.newPage.Fail? {
        return Err(world.newPage.error);
      }
      actions := actions + [OpenPage];
      // try
      r := Err("");
      if world.loading.Fail? {
        r := Err(world.loading.error);
      } else {
        var filename := ChosenFilename(options.filename, timestamp);
        var path := ScreenshotPath(projectRoot, filename);
        if world.mkdir.Fail? {
          r := Err(world.mkdir.error);
        } else if options.selector.Some? && options.selector.value != "" {
          if !world.found {
            r := Err("Selector " + options.selector.value + " not found");
          } else if world.capture.Fail? {
            r := Err(world.capture.error);
          } else {
            actions := actions + [Write(ElementShot(options.selector.value, path))];
            r := Ok(path);
          }
        } else if world.capture.Fail? {
          r := Err(world.capture.error);
        } else {
          var fullPage := if options.fullPage.Some? then options.fullPage.value else true;
          actions := actions + [Write(PageShot(path, fullPage))];
          r := Ok(path);
        }
      }
      // finally
      actions := actions + [ClosePage];
    }

    /** `close`. */
    method Close()
      modifies this
      ensures var run := CloseRun(old(browser));
        browser == run.browser && actions == old(actions) + run.actions
    {
      if browser.Some? {
        actions := actions + [CloseBrowser];
        browser := None;
      }
    }
  }
}
