/** The visual debugging harness (scripts/mcp-visual-debugger.ts): the class
    `MCPVisualDebugger` with its three nullable handles, the inspector
    start-up, the connection and tool checks against the inspector's page, and
    the `runFullTest` pipeline with its screenshot checkpoints and guaranteed
    cleanup. Puppeteer and the child process are not modelled: what they do is
    recorded as an `Effect`, and what they answer (an element is present, a
    call throws) comes in as an input. */
module VisualDebugger {
  import opened Common
  import opened InspectorLatch

  // ---------------------------------------------------------------------------
  // Configuration and launch arguments
  // ---------------------------------------------------------------------------

  /** `MCPInspectorConfig`. Its `inspectorUrl` and `screenshotPath` fields are
      never read by the harness and are left out. */
  datatype Config = Config(serverCommand: string, serverArgs: seq<string>, headless: Option<bool>)

  const InspectorPackage := "@modelcontextprotocol/inspector"
  const BrowserNotStarted := "Browser not started"

  /** The argument list given to `npx`: the inspector package, then the server
      command, then the server arguments in their order. */
  function InspectorArgs(config: Config): (r: seq<string>)
    ensures |r| == |config.serverArgs| + 2
    ensures r[0] == InspectorPackage && r[1] == config.serverCommand
    ensures r[2..] == config.serverArgs
  {
    [InspectorPackage, config.serverCommand] + config.serverArgs
  }

  /** `config.headless ?? false`. */
  function Headless(config: Config): (headless: bool)
    ensures headless <==> config.headless == Some(true)
  {
    if config.headless.Some? then config.headless.value else false
  }

  /** The settled start-up promise as the awaiting caller sees it. */
  function StartupResult(events: seq<Event>): (r: Result<string>)
    ensures r.Ok? <==> FirstVerdict(events).Resolved?
    ensures r.Ok? ==> r.value == FirstVerdict(events).url
    ensures FirstVerdict(events).Rejected? ==> r == Err(ErrorMessage(FirstVerdict(events).reason))
    ensures FirstVerdict(events).Pending? ==> r == Err(ErrorMessage(StartTimeout))
  {
    var p := Startup(events);
    if p.Resolved? then Ok(p.url) else Err(ErrorMessage(p.reason))
  }

  // ---------------------------------------------------------------------------
  // The connection check
  // ---------------------------------------------------------------------------

  datatype Status = Success | Error | Unknown

  /** The `{ status, message }` object the page evaluation returns. */
  datatype ConnectionStatus = ConnectionStatus(status: Status, message: string)

  /** The classification inside `testConnection`, given the text of the first
      error indicator and of the first success indicator on the page, if any:
      an error indicator wins over a success indicator; with neither the
      status is unknown. */
  function Classify(errorIndicator: Option<string>, successIndicator: Option<string>): (r: ConnectionStatus)
    ensures r.status == Error <==> errorIndicator.Some?
    ensures r.status == Success <==> errorIndicator.None? && successIndicator.Some?
    ensures r.status == Unknown <==> errorIndicator.None? && successIndicator.None?
    ensures r.status == Error ==> r.message == errorIndicator.value
    ensures r.status == Success ==> r.message == successIndicator.value
    ensures r.status == Unknown ==> r.message == "No clear status indicator found"
  {
    if errorIndicator.Some? then ConnectionStatus(Error, errorIndicator.value)
    else if successIndicator.Some? then ConnectionStatus(Success, successIndicator.value)
    else ConnectionStatus(Unknown, "No clear status indicator found")
  }

  /** What the inspector's page shows during the connection check: which form
      controls exist, the indicators present after the settle delay, and
      whether some page call inside the `try` block throws. */
  datatype ConnectionPage = ConnectionPage(
    commandInput: bool,
    argsInput: bool,
    connectButton: bool,
    errorIndicator: Option<string>,
    successIndicator: Option<string>,
    fault: bool)

  /** The value `testConnection` resolves to once a page exists. */
  function Connected(ui: ConnectionPage): (ok: bool)
    ensures ok <==> !ui.fault && ui.connectButton && Classify(ui.errorIndicator, ui.successIndicator).status == Success
  {
    if ui.fault then false
    else if !ui.connectButton then false
    else Classify(ui.errorIndicator, ui.successIndicator).status == Success
  }

  /** Connecting succeeds only when a success indicator shows and no error
      indicator does; a missing connect button or a throwing call gives false. */
  lemma ConnectedNeedsSuccessAlone(ui: ConnectionPage)
    ensures Connected(ui) <==> !ui.fault && ui.connectButton && ui.errorIndicator.None? && ui.successIndicator.Some?
  {
  }

  /** A missing command or arguments field is skipped: the verdict does not
      depend on which of the two fields exist. This holds by construction, as
      Connected reads neither field; the lemma records the source's promise
      rather than proving anything beyond the model's shape. */
  lemma MissingInputsNotFatal(ui: ConnectionPage, command: bool, args: bool)
    ensures Connected(ui.(commandInput := command, argsInput := args)) == Connected(ui)
  {
  }

  // ---------------------------------------------------------------------------
  // The tool check
  // ---------------------------------------------------------------------------

  /** What the inspector's page shows during the tool check. `fault` is the
      message of an Error some page call inside the `try` block throws. */
  datatype ToolPage = ToolPage(
    toolsTab: bool,
    sayHelloListed: bool,
    executeButton: bool,
    nameInput: bool,
    resultText: Option<string>,
    fault: Option<string>)

  /** `{ success: true, result }` or `{ success: false, error }`. */
  datatype ToolOutcome = ToolSucceeded(result: string) | ToolFailed(error: string)

  /** The outcome ladder of `testSayHelloTool` once a page exists: it never
      throws, and reports each missing element as a failure value. */
  function ToolTest(ui: ToolPage): (r: ToolOutcome)
    ensures r.ToolSucceeded? <==> ui.fault.None? && ui.sayHelloListed && ui.executeButton
    ensures ui.fault.Some? ==> r == ToolFailed(ui.fault.value)
    ensures ui.fault.None? && !ui.sayHelloListed ==> r == ToolFailed("say_hello tool not found")
    ensures ui.fault.None? && ui.sayHelloListed && !ui.executeButton ==> r == ToolFailed("Execute button not found")
    ensures r.ToolSucceeded? ==> r.result == (if ui.resultText.Some? then ui.resultText.value else "No result found")
  {
    if ui.fault.Some? then ToolFailed(ui.fault.value)
    else if !ui.sayHelloListed then ToolFailed("say_hello tool not found")
    else if !ui.executeButton then ToolFailed("Execute button not found")
    else ToolSucceeded(if ui.resultText.Some? then ui.resultText.value else "No result found")
  }

  // ---------------------------------------------------------------------------
  // Handles, effects and the stages of a run
  // ---------------------------------------------------------------------------

  datatype Browser = Browser(headless: bool)
  datatype Page = Page
  datatype Process = Process(command: string, args: seq<string>)

  /** What the harness does to the world outside, in order. */
  datatype Effect =
    | ReclaimPorts
    | Spawn(command: string, args: seq<string>)
    | LaunchBrowser(headless: bool)
    | OpenPage
    | Navigate(url: string)
    | Capture(path: string)
    | CloseBrowser
    | KillProcess

  /** The three nullable fields `browser`, `page` and `inspectorProcess`. */
  datatype Handles = Handles(browser: Option<Browser>, page: Option<Page>, process: Option<Process>)

  const Idle := Handles(None, None, None)

  /** A page is only ever opened in a browser the harness holds. */
  predicate Consistent(h: Handles)
  {
    h.page.Some? ==> h.browser.Some?
  }

  /** One stage: the handles after it, what it did, and what it returned or
      threw. */
  datatype Stage<T> = Stage(handles: Handles, effects: seq<Effect>, result: Result<T>)

  /** `startInspector`: reclaim the ports, spawn `npx` with the inspector
      arguments, then wait for the latch. */
  function StartInspectorStage(h: Handles, config: Config, events: seq<Event>): (s: Stage<string>)
    ensures NoCapture(s.effects)
  {
    var proc := Process("npx", InspectorArgs(config));
    Stage(h.(process := Some(proc)), [ReclaimPorts, Spawn(proc.command, proc.args)], StartupResult(events))
  }

  /** `startBrowser`: a failed launch assigns nothing; a failed `newPage`
      leaves the browser assigned and the page as it was. */
  function StartBrowserStage(h: Handles, headless: bool, launch: Outcome, newPage: Outcome): (s: Stage<()>)
    ensures NoCapture(s.effects)
  {
    if launch.Fail? then Stage(h, [], Err(launch.error))
    else
      var launched := h.(browser := Some(Browser(headless)));
      if newPage.Fail? then Stage(launched, [LaunchBrowser(headless)], Err(newPage.error))
      else Stage(launched.(page := Some(Page)), [LaunchBrowser(headless), OpenPage], Ok(()))
  }

  /** `navigateToInspector`; `navigation` covers both the page load and the
      wait for the Connect button. */
  function NavigateStage(h: Handles, url: string, navigation: Outcome): (s: Stage<()>)
    ensures NoCapture(s.effects)
  {
    if h.page.None? then Stage(h, [], Err(BrowserNotStarted))
    else if navigation.Fail? then Stage(h, [], Err(navigation.error))
    else Stage(h, [Navigate(url)], Ok(()))
  }

  /** `takeScreenshot`; `fault` is the message of an Error the capture throws. */
  function ScreenshotStage(h: Handles, root: string, filename: string, fault: Option<string>): (s: Stage<string>)
    ensures Captures(s.effects) == if s.result.Ok? then [ScreenshotPath(root, filename)] else []
    ensures s.result.Ok? <==> h.page.Some? && fault.None?
    ensures s.result.Ok? ==> s.result.value == ScreenshotPath(root, filename)
    ensures h.page.None? ==> s.result == Err(BrowserNotStarted) && s.effects == []
    ensures h.page.Some? && fault.Some? ==> s.result == Err(fault.value) && s.effects == []
    ensures s.handles == h
  {
    if h.page.None? then Stage(h, [], Err(BrowserNotStarted))
    else if fault.Some? then Stage(h, [], Err(fault.value))
    else Stage(h, [Capture(ScreenshotPath(root, filename))], Ok(ScreenshotPath(root, filename)))
  }

  /** `testConnection`: throws `Browser not started` exactly when there is no
      page; otherwise resolves to true exactly when a success indicator and no
      error indicator show after clicking Connect. */
  function ConnectionResult(h: Handles, ui: ConnectionPage): (r: Result<bool>)
    ensures r.Err? <==> h.page.None?
    ensures r.Err? ==> r.error == BrowserNotStarted
    ensures r.Ok? ==> (r.value <==> !ui.fault && ui.connectButton && ui.errorIndicator.None? && ui.successIndicator.Some?)
  {
    ConnectedNeedsSuccessAlone(ui);
    if h.page.None? then Err(BrowserNotStarted) else Ok(Connected(ui))
  }

  /** `testSayHelloTool`: throws `Browser not started` exactly when there is
      no page; otherwise resolves to the outcome of the tool check, a success
      exactly when nothing throws and the tool and the Execute button are
      found. */
  function ToolResult(h: Handles, ui: ToolPage): (r: Result<ToolOutcome>)
    ensures r.Err? <==> h.page.None?
    ensures r.Err? ==> r.error == BrowserNotStarted
    ensures r.Ok? ==> (r.value.ToolSucceeded? <==> ui.fault.None? && ui.sayHelloListed && ui.executeButton)
    ensures r.Ok? && ui.fault.Some? ==> r.value == ToolFailed(ui.fault.value)
  {
    if h.page.None? then Err(BrowserNotStarted) else Ok(ToolTest(ui))
  }

  /** `cleanup`: close the browser (dropping browser and page), then kill the
      process, each only if held. */
  function CleanupStage(h: Handles): (s: Stage<()>)
    ensures NoCapture(s.effects)
  {
    var closeEffects := if h.browser.Some? then [CloseBrowser] else [];
    var killEffects := if h.process.Some? then [KillProcess] else [];
    var closed := if h.browser.Some? then h.(browser := None, page := None) else h;
    Stage(closed.(process := None), closeEffects + killEffects, Ok(()))
  }

  /** Cleanup releases every handle, closes the browser before it kills the
      process, and a second cleanup does nothing. */
  lemma CleanupReleasesInOrder(h: Handles)
    requires Consistent(h)
    ensures CleanupStage(h).handles == Idle
    ensures CleanupStage(h).effects ==
      (if h.browser.Some? then [CloseBrowser] else []) + (if h.process.Some? then [KillProcess] else [])
    ensures CleanupStage(CleanupStage(h).handles).effects == []
    ensures CleanupStage(CleanupStage(h).handles).handles == Idle
  {
  }

  // ---------------------------------------------------------------------------
  // runFullTest
  // ---------------------------------------------------------------------------

  const LoadedShot := "01-inspector-loaded.png"
  const ConnectedShot := "02-after-connection.png"
  const ToolShot := "03-tool-execution.png"
  const ErrorShot := "error-state.png"

  /** What the world answers during one run of `runFullTest`. */
  datatype RunEnv = RunEnv(
    mkdir: Outcome,
    events: seq<Event>,
    launch: Outcome,
    newPage: Outcome,
    navigation: Outcome,
    captureFaults: map<string, string>,
    connection: ConnectionPage,
    tool: ToolPage)

  function CaptureFault(env: RunEnv, filename: string): Option<string>
  {
    if filename in env.captureFaults then Some(env.captureFaults[filename]) else None
  }

  /** The state of the `try` block: handles, effects so far, and the Error it
      threw, if any. */
  datatype Progress = Progress(handles: Handles, effects: seq<Effect>, thrown: Option<string>)

  function Then<T>(p: Progress, s: Stage<T>): (r: Progress)
  {
    Progress(s.handles, p.effects + s.effects, if s.result.Err? then Some(s.result.error) else None)
  }

  /** The `try` block of `runFullTest`: bring everything up, then walk the
      checkpoints. */
  function TryBlock(h: Handles, root: string, config: Config, env: RunEnv): (p: Progress)
    ensures Consistent(h) ==> Consistent(p.handles)
  {
    var p := StartUp(h, config, env);
    if p.thrown.Some? then p
    else
      var q := CheckpointRun(p.handles, root, env);
      Progress(q.handles, p.effects + q.effects, q.thrown)
  }

  /** The first part of the `try` block: the screenshot directory, the
      inspector, the browser and the navigation to the inspector's page. */
  function StartUp(h: Handles, config: Config, env: RunEnv): (p: Progress)
    ensures Consistent(h) ==> Consistent(p.handles)
    ensures p.thrown.None? ==> p.handles.page.Some?
  {
    if env.mkdir.Fail? then Progress(h, [], Some(env.mkdir.error))
    else
      var s1 := StartInspectorStage(h, config, env.events);
      var p1 := Then(Progress(h, [], None), s1);
      if p1.thrown.Some? then p1
      else
        var q := OpenInspectorPage(p1.handles, s1.result.value, config, env);
        Progress(q.handles, p1.effects + q.effects, q.thrown)
  }

  /** The browser, its page and the navigation to the inspector's URL. */
  function OpenInspectorPage(h: Handles, url: string, config: Config, env: RunEnv): (q: Progress)
    ensures Consistent(h) ==> Consistent(q.handles)
    ensures q.thrown.None? ==> q.handles.page.Some?
    ensures q.handles.process == h.process
  {
    var p2 := Then(Progress(h, [], None), StartBrowserStage(h, Headless(config), env.launch, env.newPage));
    if p2.thrown.Some? then p2
    else Then(p2, NavigateStage(p2.handles, url, env.navigation))
  }

  /** The rest of the `try` block: the three checkpoints with the connection
      check before the second and the tool check, only after a successful
      connection, before the third. */
  function CheckpointRun(h: Handles, root: string, env: RunEnv): (q: Progress)
    ensures q.handles == h
  {
    var p4 := Then(Progress(h, [], None), ScreenshotStage(h, root, LoadedShot, CaptureFault(env, LoadedShot)));
    if p4.thrown.Some? then p4
    else
      var connected := ConnectionResult(p4.handles, env.connection);
      assert connected.Ok?;
      var p5 := Then(p4, ScreenshotStage(p4.handles, root, ConnectedShot, CaptureFault(env, ConnectedShot)));
      if p5.thrown.Some? || !connected.value then p5
      else
        var tool := ToolResult(p5.handles, env.tool);
        assert tool.Ok?;
        Then(p5, ScreenshotStage(p5.handles, root, ToolShot, CaptureFault(env, ToolShot)))
  }

  /** The handles, effects and outcome of a whole run. */
  datatype RunTrace = RunTrace(handles: Handles, effects: seq<Effect>, outcome: Outcome)

  /** `runFullTest`: the `try` block; on an Error the `catch` block's
      error-state screenshot, whose own Error escapes; and in every case the
      `finally` block's cleanup. */
  function FullTest(h: Handles, root: string, config: Config, env: RunEnv): (t: RunTrace)
    ensures Consistent(h) ==> t.handles == Idle
  {
    Finish(TryBlock(h, root, config, env), root, env)
  }

  // ---------------------------------------------------------------------------
  // The checklist a run follows
  // ---------------------------------------------------------------------------

  /** The paths of the screenshots written, in order. */
  function Captures(effects: seq<Effect>): seq<string>
    decreases |effects|
  {
    if effects == [] then []
    else (if effects[0].Capture? then [effects[0].path] else []) + Captures(effects[1..])
  }

  /** No screenshot among `effects`. */
  predicate NoCapture(effects: seq<Effect>)
  {
    forall i :: 0 <= i < |effects| ==> !effects[i].Capture?
  }

  lemma {:induction false} CapturesNone(effects: seq<Effect>)
    requires NoCapture(effects)
    ensures Captures(effects) == []
    decreases |effects|
  {
    if effects != [] {
      CapturesNone(effects[1..]);
    }
  }

  lemma ThenCaptures<T>(p: Progress, s: Stage<T>)
    ensures Captures(Then(p, s).effects) == Captures(p.effects) + Captures(s.effects)
  {
    CapturesAppend(p.effects, s.effects);
  }

  lemma {:induction false} CapturesAppend(a: seq<Effect>, b: seq<Effect>)
    ensures Captures(a + b) == Captures(a) + Captures(b)
    decreases |a|
  {
    if a == [] {
      assert a + b == b;
    } else {
      assert (a + b)[0] == a[0] && (a + b)[1..] == a[1..] + b;
      CapturesAppend(a[1..], b);
    }
  }

  /** The directory, the inspector, the browser and its page all came up. */
  predicate OpensPage(env: RunEnv)
  {
    env.mkdir.Pass? && FirstVerdict(env.events).Resolved? && env.launch.Pass? && env.newPage.Pass?
  }

  /** How many of the three checkpoints the run attempts: none unless the
      inspector page loaded; the second after the first is written; the third
      after the second is written and only when the connection succeeded. */
  function CheckpointsAttempted(env: RunEnv): (n: nat)
    ensures n <= 3
  {
    if !OpensPage(env) || env.navigation.Fail? then 0 else CheckpointsReached(env)
  }

  /** How many checkpoints a run attempts once the inspector page loaded. */
  function CheckpointsReached(env: RunEnv): (n: nat)
    ensures 1 <= n <= 3
  {
    if LoadedShot in env.captureFaults then 1
    else if ConnectedShot in env.captureFaults || !Connected(env.connection) then 2
    else 3
  }

  const Checkpoints := [LoadedShot, ConnectedShot, ToolShot]

  /** Some stage of the `try` block threw: one before the first checkpoint,
      or the capture of the last checkpoint attempted. */
  predicate RunThrows(env: RunEnv)
  {
    var n := CheckpointsAttempted(env);
    n == 0 || Checkpoints[n - 1] in env.captureFaults
  }

  /** The checkpoint screenshots a run writes: the checkpoints attempted,
      less the one whose capture threw. */
  function CheckpointPaths(root: string, env: RunEnv): seq<string>
  {
    var n := CheckpointsAttempted(env);
    var written := if RunThrows(env) && n > 0 then n - 1 else n;
    seq(written, i requires 0 <= i < written => ScreenshotPath(root, Checkpoints[i]))
  }

  /** The screenshot paths a run writes: the checkpoints, and then the
      error-state screenshot when the run threw, a page exists to capture and
      that capture works. */
  function ExpectedCaptures(root: string, env: RunEnv): seq<string>
  {
    CheckpointPaths(root, env)
    + (if RunThrows(env) && OpensPage(env) && ErrorShot !in env.captureFaults then [ScreenshotPath(root, ErrorShot)] else [])
  }

  /** The browser was launched: the run got as far as a successful launch. */
  predicate Launched(env: RunEnv)
  {
    env.mkdir.Pass? && FirstVerdict(env.events).Resolved? && env.launch.Pass?
  }

  /** `runFullTest` rejects only when its error-state screenshot throws: with
      no page, or when that capture fails. */
  function ExpectedOutcome(env: RunEnv): Outcome
  {
    if !RunThrows(env) then Pass
    else if !OpensPage(env) then Fail(BrowserNotStarted)
    else if ErrorShot in env.captureFaults then Fail(env.captureFaults[ErrorShot])
    else Pass
  }

  /** The start-up part writes no screenshot; it reaches the checkpoints
      exactly when the page opened and loaded, and fails otherwise. */
  lemma StartUpFollowsChecklist(config: Config, env: RunEnv)
    ensures var p := StartUp(Idle, config, env);
      && Captures(p.effects) == []
      && (p.thrown.None? <==> CheckpointsAttempted(env) > 0)
      && (p.handles.page.Some? <==> OpensPage(env))
      && (p.handles.browser.Some? <==> Launched(env))
      && (p.handles.process.Some? <==> env.mkdir.Pass?)
      && (env.mkdir.Fail? ==> p.effects == [])
  {
    var p := StartUp(Idle, config, env);
    if env.mkdir.Pass? {
      var s1 := StartInspectorStage(Idle, config, env.events);
      var p1 := Then(Progress(Idle, [], None), s1);
      if p1.thrown.None? {
        var s2 := StartBrowserStage(p1.handles, Headless(config), env.launch, env.newPage);
        var p2 := Then(p1, s2);
        if p2.thrown.None? {
          var s3 := NavigateStage(p2.handles, s1.result.value, env.navigation);
          assert p.effects == s1.effects + s2.effects + s3.effects;
        }
      }
    }
    CapturesNone(p.effects);
  }

  /** The checkpoint part, entered with the page loaded, writes the
      checkpoints the checklist expects and throws exactly when it says. */
  lemma CheckpointRunFollowsChecklist(h: Handles, root: string, env: RunEnv)
    requires h.page.Some? && OpensPage(env) && env.navigation.Pass?
    ensures var q := CheckpointRun(h, root, env);
      && Captures(q.effects) == CheckpointPaths(root, env)
      && (q.thrown.Some? <==> RunThrows(env))
      && q.handles == h
  {
    CheckpointRunThrows(h, root, env);
    CapturesNone([]);
    CheckpointPathsByCase(root, env);
    var s4 := ScreenshotStage(h, root, LoadedShot, CaptureFault(env, LoadedShot));
    var p4 := Then(Progress(h, [], None), s4);
    ThenCaptures(Progress(h, [], None), s4);
    if p4.thrown.None? {
      var s5 := ScreenshotStage(h, root, ConnectedShot, CaptureFault(env, ConnectedShot));
      var p5 := Then(p4, s5);
      ThenCaptures(p4, s5);
      if p5.thrown.None? && Connected(env.connection) {
        var s6 := ScreenshotStage(h, root, ToolShot, CaptureFault(env, ToolShot));
        ThenCaptures(p5, s6);
      }
    }
  }

  /** The checkpoint part keeps the handles and throws exactly when the
      checklist says. */
  lemma CheckpointRunThrows(h: Handles, root: string, env: RunEnv)
    requires h.page.Some? && OpensPage(env) && env.navigation.Pass?
    ensures CheckpointRun(h, root, env).thrown.Some? <==> RunThrows(env)
    ensures CheckpointRun(h, root, env).handles == h
  {
    CheckpointPathsByCase(root, env);
  }

  /** Once the inspector page loaded, the checkpoint screenshots written and
      whether the run throws, case by case. */
  lemma CheckpointPathsByCase(root: string, env: RunEnv)
    requires OpensPage(env) && env.navigation.Pass?
    ensures var loaded, connected, tool :=
        ScreenshotPath(root, LoadedShot), ScreenshotPath(root, ConnectedShot), ScreenshotPath(root, ToolShot);
      && (LoadedShot in env.captureFaults ==> CheckpointPaths(root, env) == [] && RunThrows(env))
      && (LoadedShot !in env.captureFaults && ConnectedShot in env.captureFaults ==>
            CheckpointPaths(root, env) == [loaded] && RunThrows(env))
      && (LoadedShot !in env.captureFaults && ConnectedShot !in env.captureFaults && !Connected(env.connection) ==>
            CheckpointPaths(root, env) == [loaded, connected] && !RunThrows(env))
      && (LoadedShot !in env.captureFaults && ConnectedShot !in env.captureFaults && Connected(env.connection) ==>
            CheckpointPaths(root, env) == (if ToolShot in env.captureFaults then [loaded, connected] else [loaded, connected, tool])
            && (RunThrows(env) <==> ToolShot in env.captureFaults))
  {
  }

  /** The `try` block of a fresh harness: it throws exactly when the
      checklist says and writes the checkpoint screenshots; it leaves a page
      exactly when one was opened, a browser exactly when one was launched
      and a process exactly when one was spawned. */
  lemma TryBlockFollowsChecklist(root: string, config: Config, env: RunEnv)
    ensures var p := TryBlock(Idle, root, config, env);
      && (p.thrown.Some? <==> RunThrows(env))
      && Captures(p.effects) == CheckpointPaths(root, env)
      && (p.handles.page.Some? <==> OpensPage(env))
      && (p.handles.browser.Some? <==> Launched(env))
      && (p.handles.process.Some? <==> env.mkdir.Pass?)
      && (env.mkdir.Fail? ==> p.effects == [])
  {
    StartUpFollowsChecklist(config, env);
    var p := StartUp(Idle, config, env);
    if p.thrown.None? {
      CheckpointRunFollowsChecklist(p.handles, root, env);
      CapturesAppend(p.effects, CheckpointRun(p.handles, root, env).effects);
    }
  }

  /** The `catch` and `finally` blocks after a `try` block that left the
      handles `h` and threw `thrown`, if anything. */
  function Aftermath(h: Handles, thrown: Option<string>, root: string, env: RunEnv): (a: RunTrace)
    ensures Consistent(h) ==> a.handles == Idle
    ensures thrown.None? ==> a.outcome == Pass && NoCapture(a.effects)
  {
    var caught :=
      if thrown.None? then Progress(h, [], None)
      else Then(Progress(h, [], None), ScreenshotStage(h, root, ErrorShot, CaptureFault(env, ErrorShot)));
    var c := CleanupStage(caught.handles);
    RunTrace(c.handles, caught.effects + c.effects,
             if caught.thrown.Some? then Fail(caught.thrown.value) else Pass)
  }

  /** The whole run after a `try` block that ended in `p`. */
  function Finish(p: Progress, root: string, env: RunEnv): (r: RunTrace)
    ensures |p.effects| <= |r.effects| && r.effects[..|p.effects|] == p.effects
    ensures Consistent(p.handles) ==> r.handles == Idle
  {
    var a := Aftermath(p.handles, p.thrown, root, env);
    var r := RunTrace(a.handles, p.effects + a.effects, a.outcome);
    assert r.effects[..|p.effects|] == p.effects;
    r
  }

  /** After any `try` block: every handle is released, the process is killed
      last whenever it is held, and the browser is closed right before that
      whenever it is held. */
  lemma FinishReleasesAll(p: Progress, root: string, env: RunEnv)
    requires Consistent(p.handles)
    ensures Finish(p, root, env).handles == Idle
    ensures var e := Finish(p, root, env).effects;
      && (p.handles.process.Some? ==> |e| >= 1 && e[|e| - 1] == KillProcess)
      && (p.handles.process.Some? && p.handles.browser.Some? ==> |e| >= 2 && e[|e| - 2] == CloseBrowser)
  {
  }

  /** After a `try` block that followed the checklist, the screenshots and
      the outcome of the run are the expected ones. */
  lemma FinishFollowsChecklist(p: Progress, root: string, env: RunEnv)
    requires p.thrown.Some? <==> RunThrows(env)
    requires Captures(p.effects) == CheckpointPaths(root, env)
    requires p.handles.page.Some? <==> OpensPage(env)
    ensures Captures(Finish(p, root, env).effects) == ExpectedCaptures(root, env)
    ensures Finish(p, root, env).outcome == ExpectedOutcome(env)
  {
    var start := Progress(p.handles, [], None);
    var shot := ScreenshotStage(p.handles, root, ErrorShot, CaptureFault(env, ErrorShot));
    var caught := if p.thrown.None? then start else Then(start, shot);
    var c := CleanupStage(caught.handles);
    CapturesNone([]);
    if p.thrown.Some? {
      ThenCaptures(start, shot);
    }
    CapturesAppend(caught.effects, c.effects);
    CapturesNone(c.effects);
    CapturesAppend(p.effects, caught.effects + c.effects);
  }

  /** A run of a fresh harness follows the checklist: the screenshots and the
      outcome are the expected ones, every handle is released, the process is
      killed last whenever it was spawned, and the browser is closed right
      before that whenever it was launched. */
  lemma FullTestFollowsChecklist(root: string, config: Config, env: RunEnv)
    ensures FullTest(Idle, root, config, env).handles == Idle
    ensures Captures(FullTest(Idle, root, config, env).effects) == ExpectedCaptures(root, env)
    ensures FullTest(Idle, root, config, env).outcome == ExpectedOutcome(env)
    ensures var e := FullTest(Idle, root, config, env).effects;
      && (env.mkdir.Fail? ==> e == [])
      && (env.mkdir.Pass? ==> |e| >= 1 && e[|e| - 1] == KillProcess)
      && (Launched(env) ==> |e| >= 2 && e[|e| - 2] == CloseBrowser)
  {
    var p := TryBlock(Idle, root, config, env);
    TryBlockFollowsChecklist(root, config, env);
    FinishReleasesAll(p, root, env);
    FinishFollowsChecklist(p, root, env);
    if env.mkdir.Fail? {
      CapturesNone([]);
      assert !OpensPage(env) && Finish(p, root, env).effects == [];
    }
  }

  /** The tool-execution screenshot is written only after a successful
      connection, once both earlier checkpoints were written. */
  lemma ToolShotNeedsConnection(root: string, config: Config, env: RunEnv)
    requires ScreenshotPath(root, ToolShot) in Captures(FullTest(Idle, root, config, env).effects)
    ensures Connected(env.connection)
    ensures OpensPage(env) && env.navigation.Pass?
    ensures LoadedShot !in env.captureFaults && ConnectedShot !in env.captureFaults
  {
    FullTestFollowsChecklist(root, config, env);
    ToolPathOnlyAtThirdCheckpoint(root, env);
  }

  /** The tool-execution path is among the expected screenshots only when
      all three checkpoints were attempted. */
  lemma ToolPathOnlyAtThirdCheckpoint(root: string, env: RunEnv)
    requires ScreenshotPath(root, ToolShot) in ExpectedCaptures(root, env)
    ensures CheckpointsAttempted(env) == 3
  {
    var paths := CheckpointPaths(root, env);
    if ScreenshotPath(root, ToolShot) in paths {
      var i :| 0 <= i < |paths| && paths[i] == ScreenshotPath(root, ToolShot);
      ScreenshotPathInjective(root, Checkpoints[i], ToolShot);
      assert i == 2;
    } else {
      ScreenshotPathInjective(root, ErrorShot, ToolShot);
    }
  }

  // ---------------------------------------------------------------------------
  // The harness object
  // ---------------------------------------------------------------------------

  /** `MCPVisualDebugger`: the three nullable handles it updates in place, the
      project root every path is built from, and the record of what it did. */
  class Debugger {
    const projectRoot: string
    var browser: Option<Browser>
    var page: Option<Page>
    var inspectorProcess: Option<Process>
    ghost var effects: seq<Effect>

    function State(): Handles
      reads this
    {
      Handles(browser, page, inspectorProcess)
    }

    constructor (root: string)
      ensures projectRoot == root && State() == Idle && effects == []
    {
      projectRoot := root;
      browser, page, inspectorProcess := None, None, None;
      effects := [];
    }

    /** `startInspector`: the callbacks run one event at a time, each updating
        the local URL and the promise, until the timer has fired. */
    method StartInspector(config: Config, events: seq<Event>) returns (r: Result<string>)
      modifies this
      ensures var s := StartInspectorStage(old(State()), config, events);
        State() == s.handles && effects == old(effects) + s.effects && r == s.result
    {
      effects := effects + [ReclaimPorts];
      var proc := Process("npx", InspectorArgs(config));
      inspectorProcess := Some(proc);
      effects := effects + [Spawn(proc.command, proc.args)];
      assert effects == old(effects) + [ReclaimPorts, Spawn(proc.command, proc.args)];
      ghost var spawned, log := State(), effects;
      var fed := events + [TimerFired];
      var url, promise := "", Pending;
      var i := 0;
      while i < |fed|
        invariant 0 <= i <= |fed|
        invariant Latch(url, promise) == Feed(Start, fed[..i])
        invariant State() == spawned && effects == log
        decreases |fed| - i
      {
        ghost var next := Step(Latch(url, promise), fed[i]);
        FeedSnoc(Start, fed[..i], fed[i]);
        assert fed[..i + 1] == fed[..i] + [fed[i]];
        assert Feed(Start, fed[..i + 1]) == next;
        match fed[i] {
          case Stdout(chunk) =>
            var found := UrlPattern.ExtractUrl(chunk);
            if found.Some? && url == "" {
              url := found.value;
              promise := Settle(promise, Resolved(url));
            }
          case Stderr(chunk) =>
            if url == "" && Contains(chunk, PortInUseMarker) {
              promise := Settle(promise, Rejected(PortInUse));
            }
          case Close(code) =>
            if code != Some(0) && url == "" {
              promise := Settle(promise, Rejected(ProcessExited(code)));
            }
          case TimerFired =>
            if url == "" {
              promise := Settle(promise, Rejected(StartTimeout));
            }
        }
        assert Latch(url, promise) == next;
        i := i + 1;
      }
      assert fed[..i] == fed;
      assert promise == Startup(events);
      r := if promise.Resolved? then Ok(promise.url) else Err(ErrorMessage(promise.reason));
    }

    /** `startBrowser`. */
    method StartBrowser(headless: bool, launch: Outcome, newPage: Outcome) returns (r: Result<()>)
      modifies this
      ensures var s := StartBrowserStage(old(State()), headless, launch, newPage);
        State() == s.handles && effects == old(effects) + s.effects && r == s.result
    {
      if launch.Fail? {
        return Err(launch.error);
      }
      browser := Some(Browser(headless));
      effects := effects + [LaunchBrowser(headless)];
      if newPage.Fail? {
        return Err(newPage.error);
      }
      page := Some(Page);
      effects := effects + [OpenPage];
      r := Ok(());
    }

    /** `navigateToInspector`. */
    method NavigateToInspector(url: string, navigation: Outcome) returns (r: Result<()>)
      modifies this
      ensures var s := NavigateStage(old(State()), url, navigation);
        State() == s.handles && effects == old(effects) + s.effects && r == s.result
    {
      if page.None? {
        return Err(BrowserNotStarted);
      }
      if navigation.Fail? {
        return Err(navigation.error);
      }
      effects := effects + [Navigate(url)];
      r := Ok(());
    }

    /** `takeScreenshot`: the path under the project's screenshot directory. */
    method TakeScreenshot(filename: string, fault: Option<string>) returns (r: Result<string>)
      modifies this
      ensures var s := ScreenshotStage(old(State()), projectRoot, filename, fault);
        State() == s.handles && effects == old(effects) + s.effects && r == s.result
    {
      if page.None? {
        return Err(BrowserNotStarted);
      }
      if fault.Some? {
        return Err(fault.value);
      }
      var path := ScreenshotPath(projectRoot, filename);
      effects := effects + [Capture(path)];
      r := Ok(path);
    }

    /** `testConnection`: throws without a page; otherwise resolves to whether
        the page shows a success indicator and no error indicator. */
    method TestConnection(ui: ConnectionPage) returns (r: Result<bool>)
      ensures r == ConnectionResult(State(), ui)
    {
      if page.None? {
        return Err(BrowserNotStarted);
      }
      r := Ok(Connected(ui));
    }

    /** `testSayHelloTool`: throws without a page; otherwise resolves to the
        outcome of the tool check. */
    method TestSayHelloTool(ui: ToolPage) returns (r: Result<ToolOutcome>)
      ensures r == ToolResult(State(), ui)
    {
      if page.None? {
        return Err(BrowserNotStarted);
      }
      r := Ok(ToolTest(ui));
    }

    /** `cleanup`. */
    method Cleanup()
      modifies this
      ensures var s := CleanupStage(old(State()));
        State() == s.handles && effects == old(effects) + s.effects
    {
      if browser.Some? {
        effects := effects + [CloseBrowser];
        browser, page := None, None;
      }
      if inspectorProcess.Some? {
        effects := effects + [KillProcess];
        inspectorProcess := None;
      }
    }

    /** `runFullTest`: the `try` block, the `catch` block's error-state
        screenshot and the `finally` block's cleanup. */
    method RunFullTest(config: Config, env: RunEnv) returns (r: Outcome)
      modifies this
      ensures var t := FullTest(old(State()), projectRoot, config, env);
        State() == t.handles && effects == old(effects) + t.effects && r == t.outcome
    {
      ghost var before := effects;
      var thrown := TryBlockSteps(config, env);
      ghost var mid := effects;
      r := CatchAndCleanup(thrown, env);
      assert effects == before + (mid[|before|..] + effects[|mid|..]);
    }

    /** The `catch` block's error-state screenshot, taken when the `try`
        block threw, and the `finally` block's cleanup. */
    method CatchAndCleanup(thrown: Option<string>, env: RunEnv) returns (r: Outcome)
      modifies this
      ensures var a := Aftermath(old(State()), thrown, projectRoot, env);
        State() == a.handles && effects == old(effects) + a.effects && r == a.outcome
    {
      ghost var h, before := State(), effects;
      ghost var caught :=
        if thrown.None? then Progress(h, [], None)
        else Then(Progress(h, [], None), ScreenshotStage(h, projectRoot, ErrorShot, CaptureFault(env, ErrorShot)));
      var escaped := None;
      if thrown.Some? {
        var shot := TakeScreenshot(ErrorShot, CaptureFault(env, ErrorShot));
        escaped := if shot.Err? then Some(shot.error) else None;
      }
      assert State() == caught.handles && effects == before + caught.effects && escaped == caught.thrown;
      ghost var c := CleanupStage(caught.handles);
      Cleanup();
      assert effects == before + (caught.effects + c.effects);
      r := if escaped.Some? then Fail(escaped.value) else Pass;
    }

    /** The `try` block of `runFullTest`. */
    method TryBlockSteps(config: Config, env: RunEnv) returns (thrown: Option<string>)
      modifies this
      ensures var p := TryBlock(old(State()), projectRoot, config, env);
        State() == p.handles && effects == old(effects) + p.effects && thrown == p.thrown
    {
      ghost var h, before := State(), effects;
      ghost var p := StartUp(h, config, env);
      thrown := StartUpSteps(config, env);
      ghost var mid := effects;
      if thrown.None? {
        ghost var q := CheckpointRun(p.handles, projectRoot, env);
        thrown := Checkpoints(env);
        assert TryBlock(h, projectRoot, config, env) == Progress(q.handles, p.effects + q.effects, q.thrown);
        assert effects == before + (p.effects + q.effects);
      }
    }

    /** The start-up part of the `try` block. */
    method StartUpSteps(config: Config, env: RunEnv) returns (thrown: Option<string>)
      modifies this
      ensures var p := StartUp(old(State()), config, env);
        State() == p.handles && effects == old(effects) + p.effects && thrown == p.thrown
    {
      if env.mkdir.Fail? {
        return Some(env.mkdir.error);
      }
      ghost var h, before := State(), effects;
      ghost var s1 := StartInspectorStage(h, config, env.events);
      var url := StartInspector(config, env.events);
      ghost var p1 := Then(Progress(h, [], None), s1);
      assert [] + s1.effects == s1.effects;
      if url.Err? {
        return Some(url.error);
      }
      ghost var q := OpenInspectorPage(p1.handles, s1.result.value, config, env);
      thrown := OpenPageSteps(url.value, config, env);
      assert StartUp(h, config, env) == Progress(q.handles, p1.effects + q.effects, q.thrown);
      assert effects == before + (p1.effects + q.effects);
    }

    /** Starting the browser and navigating to the inspector, stopping at the
        first Error. */
    method OpenPageSteps(url: string, config: Config, env: RunEnv) returns (thrown: Option<string>)
      modifies this
      ensures var q := OpenInspectorPage(old(State()), url, config, env);
        State() == q.handles && effects == old(effects) + q.effects && thrown == q.thrown
    {
      ghost var h, before := State(), effects;
      ghost var p2 := Then(Progress(h, [], None), StartBrowserStage(h, Headless(config), env.launch, env.newPage));
      var started := StartBrowser(Headless(config), env.launch, env.newPage);
      assert effects == before + p2.effects;
      if started.Err? {
        return Some(started.error);
      }
      var loaded := NavigateToInspector(url, env.navigation);
      thrown := if loaded.Err? then Some(loaded.error) else None;
    }

    /** The checkpoints of the `try` block. */
    method Checkpoints(env: RunEnv) returns (thrown: Option<string>)
      modifies this
      ensures var p := CheckpointRun(old(State()), projectRoot, env);
        State() == p.handles && effects == old(effects) + p.effects && thrown == p.thrown
    {
      ghost var h, before := State(), effects;
      ghost var p4 := Then(Progress(h, [], None), ScreenshotStage(h, projectRoot, LoadedShot, CaptureFault(env, LoadedShot)));
      var shot := TakeScreenshot(LoadedShot, CaptureFault(env, LoadedShot));
      assert effects == before + p4.effects;
      if shot.Err? {
        return Some(shot.error);
      }
      var connected := TestConnection(env.connection);
      assert connected.Ok?;
      ghost var p5 := Then(p4, ScreenshotStage(h, projectRoot, ConnectedShot, CaptureFault(env, ConnectedShot)));
      shot := TakeScreenshot(ConnectedShot, CaptureFault(env, ConnectedShot));
      assert effects == before + p5.effects;
      if shot.Err? {
        return Some(shot.error);
      }
      if connected.value {
        var tool := TestSayHelloTool(env.tool);
        assert tool.Ok?;
        ghost var p6 := Then(p5, ScreenshotStage(h, projectRoot, ToolShot, CaptureFault(env, ToolShot)));
        shot := TakeScreenshot(ToolShot, CaptureFault(env, ToolShot));
        assert effects == before + p6.effects;
        if shot.Err? {
          return Some(shot.error);
        }
      }
      thrown := None;
    }
  }
}
