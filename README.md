# hello-mcp-server, modelled in Dafny

This project models the core of a small Model Context Protocol (MCP) demonstration server and of the two
scripts that drive it:

- **`src/index.ts`**: the six request handlers of the server (module `HelloServer`). These are `say_hello`
  for listing and calling tools, `mcp://server-info` for listing and reading resources, and
  `greeting-generator` for listing and getting prompts. The module also covers `generateGreetingPrompt`
  and the uptime arithmetic of `generateServerInfo`. A handler that throws an Error returns
  `Err(message)`.
- **`scripts/mcp-visual-debugger.ts`**: the `MCPVisualDebugger` harness.
  - Module `UrlPattern`: the regular expression that finds the inspector's handshake URL.
  - Module `InspectorLatch`: the start-up latch of `startInspector`. Stdout, stderr, `close` and the
    15-second timer race to settle one promise. The model is a fold over a sequence of events, with a
    reference definition that says "the first decisive event wins".
  - Module `VisualDebugger`:
    - the connection classification and the tool-outcome ladder, as functions;
    - the class `Debugger`, whose methods update the `browser`, `page` and `inspectorProcess` handles in
      place;
    - `runFullTest`, with its checkpoint screenshots, its `catch` screenshot and its `finally` cleanup.
- **`scripts/screenshot-tool.ts`**: the `ScreenshotTool` class (module `ScreenshotTool`): its lazily
  launched browser, the file name and path of a capture, the element versus full-page choice, and the
  page it closes on every path.

Each class method that changes state, except `ScreenshotTool.Tool.Init`, is proved against a
specification function (`ensures State() == S.handles && effects == old(effects) + S.effects && r ==
S.result`, or the analogous `browser == … && actions == old(actions) + …` form in `ScreenshotTool.Tool`;
`Debugger.Cleanup` has no result). `Tool.Init` states its new state directly. `Debugger.TestConnection` and
`Debugger.TestSayHelloTool` change nothing and return what `ConnectionResult` and `ToolResult` give. The
guarantees are then proved as lemmas about those functions. Puppeteer, the child process, the file system and the clock are not executed. Their answers
are inputs:

- `Event` for the inspector process;
- `ConnectionPage`, `ToolPage` and `RunEnv` for the debugger;
- `World` for the screenshot tool;
- `HostFacts` and an uptime in milliseconds for the server report.

What the scripts do to the world is recorded as a ghost trace of `Effect` or `Action` values.

JavaScript semantics the model spells out:

- `||` versus `??`: an empty file name falls back to the timestamp, but only `undefined` turns `fullPage`
  into `true`.
- Falsy empty strings for prompt arguments and selectors.
- A `null` exit code for a process killed by a signal. `null !== 0` holds, so that exit rejects.
- JavaScript's truncating `%` on a negative uptime.
- A settled promise ignores later `resolve` and `reject` calls.

## Model

| member | source | states |
|---|---|---|
| `Common.Contains` | scripts/mcp-visual-debugger.ts:72 | `includes`: when a text contains a piece, the piece is no longer than the text |
| `Common.ContainsOccurs` | scripts/mcp-visual-debugger.ts:72 | a piece that `includes` finds occurs at some position of the text |
| `Common.NatToString` | src/index.ts:102 | the decimal text of the process id is a non-empty run of digits without a leading zero that reads back as that number |
| `Common.IntToString` | scripts/mcp-visual-debugger.ts:79 | the decimal text of an exit code is non-empty, starts with '-' exactly when the code is negative, holds only digits after the optional '-', has no leading zero there, and reads back as the code |
| `Common.IntToStringInjective` | scripts/mcp-visual-debugger.ts:79 | different exit codes never print as the same text |
| `Common.ScreenshotPath` | scripts/mcp-visual-debugger.ts:131 | the screenshot path is the project root, then `/screenshots/`, then the file name, each in its place |
| `Common.ScreenshotPathInjective` | scripts/mcp-visual-debugger.ts:131 | `projectRoot + "/screenshots/" + f` is injective in the file name `f`. The model joins by plain concatenation; the normalisation `path.join` performs (collapsing `..`, `.` and repeated separators) is not modelled, and this result does not hold for it |
| `UrlPattern.DigitRunEnd` | scripts/mcp-visual-debugger.ts:61 | `\d+` spans a maximal run of digits: every character inside is a digit and the one after is not |
| `UrlPattern.WordRunEnd` | scripts/mcp-visual-debugger.ts:61 | the greedy `[\w]+` spans a maximal run of word characters |
| `UrlPattern.PiecesInLanguage` | scripts/mcp-visual-debugger.ts:61 | a scheme, a digit run, a key and a word run found in sequence form a string of the pattern's language |
| `UrlPattern.PieceMatchEnd` | scripts/mcp-visual-debugger.ts:61 | a greedy attempt at a position that never gives back digits taken by `\d+`, which is the engine's attempt for a key that does not start with a digit, as the source's `/?MCP_PROXY_AUTH_TOKEN=` does; for any literal scheme and key, what it matches is a string of that language within the text whose token cannot be extended |
| `UrlPattern.PieceMatchEndComplete` | scripts/mcp-visual-debugger.ts:61 | for any literal scheme and a key that cannot continue the digits, every string of that language starting at a position is found there, and the match reaches at least as far |
| `UrlPattern.PieceMatchEndReaches` | scripts/mcp-visual-debugger.ts:61 | when the scheme, a non-empty digit run, a key that does not start with a digit and a non-empty word run lie end to end, the attempt succeeds and reaches at least as far |
| `UrlPattern.MatchEndAt` | scripts/mcp-visual-debugger.ts:61 | a match found at a position is a string of the pattern's language within the text, and its token cannot be extended |
| `UrlPattern.MatchEndAtComplete` | scripts/mcp-visual-debugger.ts:61 | every string of the pattern's language that starts at a position is found there, and the match found reaches at least as far |
| `UrlPattern.MatchFrom` | scripts/mcp-visual-debugger.ts:61 | for any scheme and key, the scan returns the first position at which the attempt succeeds, and none when no later position succeeds |
| `UrlPattern.MatchIsLeftmostLongest` | scripts/mcp-visual-debugger.ts:61 | `output.match` returns the leftmost piece of the chunk that the pattern describes, and that piece cannot be lengthened; there is no match exactly when no piece of the chunk is described by the pattern |
| `UrlPattern.Match` | scripts/mcp-visual-debugger.ts:61 | a match is a non-empty span of the chunk that the pattern describes |
| `UrlPattern.ExtractUrl` | scripts/mcp-visual-debugger.ts:61-63 | `urlMatch[0]` exists exactly when the chunk matches; it is then the text of `Match`'s span (so leftmost and not extendable, by `MatchIsLeftmostLongest`), non-empty, of the pattern's language and occurs in the chunk |
| `InspectorLatch.Settle` | scripts/mcp-visual-debugger.ts:65-86 | `resolve` and `reject` settle a pending promise and leave a settled one as it is |
| `InspectorLatch.ErrorMessage` | scripts/mcp-visual-debugger.ts:79 | an exit rejects with `Inspector process exited with code ` followed by the code's decimal text, which reads back as the code, or by `null` |
| `InspectorLatch.ErrorMessageInjective` | scripts/mcp-visual-debugger.ts:73-86 | different rejection reasons, and different exit codes, give different Error messages |
| `InspectorLatch.ExitCodeTextInjective` | scripts/mcp-visual-debugger.ts:79 | the printed exit code, a number or `null`, determines the code |
| `InspectorLatch.Step` | scripts/mcp-visual-debugger.ts:56-88 | a callback changes nothing once a URL is latched and never changes a settled promise; the URL changes only from empty to the URL a stdout chunk carries |
| `InspectorLatch.Feed` | scripts/mcp-visual-debugger.ts:54-88 | once a URL is latched, later events change neither the URL nor the promise |
| `InspectorLatch.SettledStaysSettled` | scripts/mcp-visual-debugger.ts:42-89 | once settled, the promise keeps its value whatever events follow |
| `InspectorLatch.FeedDecidesByFirstVerdict` | scripts/mcp-visual-debugger.ts:56-88 | from a fresh latch, the promise ends as the first decisive event says: a URL, the port-in-use text on stderr, an exit with code other than 0, or the timer |
| `InspectorLatch.FeedLatchesFirstUrl` | scripts/mcp-visual-debugger.ts:54-66 | the local `inspectorUrl` ends as the first URL any stdout chunk carried, even after a rejection |
| `InspectorLatch.ResolvedWithLatchedUrl` | scripts/mcp-visual-debugger.ts:63-65 | a resolved promise holds exactly the URL the latch keeps |
| `InspectorLatch.FirstVerdictThenTimer` | scripts/mcp-visual-debugger.ts:84-88 | the timer firing after the process events decides only when nothing decided before it |
| `InspectorLatch.Startup` | scripts/mcp-visual-debugger.ts:42-89 | start-up always settles: as the first decisive event says, or with `Timeout waiting for inspector to start` when none came before the timer |
| `InspectorLatch.SettleOnce` | scripts/mcp-visual-debugger.ts:42-89 | events after the promise settled do not change it |
| `InspectorLatch.FirstUrlWins` | scripts/mcp-visual-debugger.ts:62-66 | once a URL is found, later URLs change neither the URL nor the promise |
| `InspectorLatch.FirstUrlIsDecisive` | scripts/mcp-visual-debugger.ts:62-65 | a URL among the events means some event has settled the promise |
| `InspectorLatch.CleanExitKeepsWaiting` | scripts/mcp-visual-debugger.ts:77-81 | an exit with code 0 before any URL settles nothing |
| `VisualDebugger.InspectorArgs` | scripts/mcp-visual-debugger.ts:43-47 | `npx` gets the inspector package, then the server command, then the server arguments in order |
| `VisualDebugger.Headless` | scripts/mcp-visual-debugger.ts:291 | the browser is headless exactly when the configuration says `headless: true`; `config.headless ?? false` treats a missing value as false |
| `VisualDebugger.StartupResult` | scripts/mcp-visual-debugger.ts:42-89 | `startInspector` resolves to the first URL exactly when that is the first decisive event, and otherwise rejects with the first rejection's message or the timeout message |
| `VisualDebugger.Classify` | scripts/mcp-visual-debugger.ts:187-198 | an error indicator wins over a success indicator, with the indicator's text as message; with neither the status is unknown, with `No clear status indicator found` |
| `VisualDebugger.Connected` | scripts/mcp-visual-debugger.ts:152-209 | `testConnection` resolves to true exactly when nothing throws, the Connect button exists and the status is success |
| `VisualDebugger.ConnectedNeedsSuccessAlone` | scripts/mcp-visual-debugger.ts:187-201 | connecting succeeds exactly when a success indicator shows and no error indicator does |
| `VisualDebugger.MissingInputsNotFatal` | scripts/mcp-visual-debugger.ts:156-168 | a missing command or arguments field is skipped and does not change the verdict; this holds by construction, since `Connected` reads neither field |
| `VisualDebugger.ToolTest` | scripts/mcp-visual-debugger.ts:215-261 | the tool check succeeds exactly when nothing throws and both the tool and the Execute button are found; each missing element, and each thrown Error, gives its own failure message |
| `VisualDebugger.StartInspectorStage` | scripts/mcp-visual-debugger.ts:24-90 | reclaiming the ports, spawning `npx` and waiting for the latch write no screenshot |
| `VisualDebugger.StartBrowserStage` | scripts/mcp-visual-debugger.ts:92-111 | launching the browser and opening its page write no screenshot |
| `VisualDebugger.NavigateStage` | scripts/mcp-visual-debugger.ts:113-126 | navigating writes no screenshot |
| `VisualDebugger.ScreenshotStage` | scripts/mcp-visual-debugger.ts:128-147 | a screenshot is written, to the path returned, exactly when the capture succeeds |
| `VisualDebugger.ConnectionResult` | scripts/mcp-visual-debugger.ts:149-210 | `testConnection` throws `Browser not started` exactly when there is no page; otherwise it resolves to true exactly when nothing throws, the Connect button exists, and a success indicator and no error indicator show |
| `VisualDebugger.ToolResult` | scripts/mcp-visual-debugger.ts:212-262 | `testSayHelloTool` throws `Browser not started` exactly when there is no page; otherwise it succeeds exactly when nothing throws and the tool and the Execute button are found, and a thrown Error becomes the failure message |
| `VisualDebugger.CleanupStage` | scripts/mcp-visual-debugger.ts:264-279 | cleanup writes no screenshot |
| `VisualDebugger.CleanupReleasesInOrder` | scripts/mcp-visual-debugger.ts:264-279 | cleanup releases every handle; it closes the browser before it kills the process, each only if held; a second cleanup does nothing |
| `VisualDebugger.StartUp` | scripts/mcp-visual-debugger.ts:284-294 | from consistent handles the start-up leaves consistent handles; when it throws nothing, a page is open |
| `VisualDebugger.OpenInspectorPage` | scripts/mcp-visual-debugger.ts:291-294 | starting the browser and navigating keep the handles consistent and the process as it was, and leave a page open when nothing threw |
| `VisualDebugger.CheckpointRun` | scripts/mcp-visual-debugger.ts:296-312 | the checkpoints and the two checks keep the handles as they are |
| `VisualDebugger.TryBlock` | scripts/mcp-visual-debugger.ts:282-313 | the `try` block keeps the handles consistent: a page only with a browser |
| `VisualDebugger.Aftermath` | scripts/mcp-visual-debugger.ts:314-319 | `catch` and `finally` release every handle; when the `try` block threw nothing, the run passes and no further screenshot is written |
| `VisualDebugger.Finish` | scripts/mcp-visual-debugger.ts:314-319 | the effects of the `try` block are kept as a prefix, and every handle is released |
| `VisualDebugger.FullTest` | scripts/mcp-visual-debugger.ts:281-320 | a run from consistent handles ends with every handle released |
| `VisualDebugger.CheckpointsAttempted` | scripts/mcp-visual-debugger.ts:294-312 | a run attempts at most three checkpoint screenshots |
| `VisualDebugger.CheckpointsReached` | scripts/mcp-visual-debugger.ts:297-312 | once the inspector page loaded, a run attempts between one and three checkpoints |
| `VisualDebugger.StartUpFollowsChecklist` | scripts/mcp-visual-debugger.ts:284-294 | the start-up part writes no screenshot and reaches the checkpoints exactly when the page opened and loaded; it leaves a page, a browser and a process exactly when each was obtained |
| `VisualDebugger.CheckpointRunFollowsChecklist` | scripts/mcp-visual-debugger.ts:296-312 | with the page loaded, the checkpoints written are 01, 02 and 03 in that order, minus those not reached, and the block throws exactly when the last one attempted fails |
| `VisualDebugger.CheckpointRunThrows` | scripts/mcp-visual-debugger.ts:296-312 | with the page loaded, the checkpoint part keeps the handles and throws exactly when the last checkpoint attempted fails |
| `VisualDebugger.CheckpointPathsByCase` | scripts/mcp-visual-debugger.ts:296-312 | with the page loaded: a failed 01 writes nothing; a failed 02 writes 01; a failed connection writes 01 and 02 and throws nothing; otherwise 03 follows unless its capture fails |
| `VisualDebugger.TryBlockFollowsChecklist` | scripts/mcp-visual-debugger.ts:282-313 | the `try` block throws exactly when the checklist says, writes the checkpoint screenshots, and leaves handles matching what was obtained |
| `VisualDebugger.FinishReleasesAll` | scripts/mcp-visual-debugger.ts:314-319 | after any `try` block, every handle is released; the process is killed last and the browser closed just before it whenever held |
| `VisualDebugger.FinishFollowsChecklist` | scripts/mcp-visual-debugger.ts:314-319 | the `catch` screenshot is written exactly when the run threw, a page exists and that capture works; the run rejects only when that screenshot throws |
| `VisualDebugger.FullTestFollowsChecklist` | scripts/mcp-visual-debugger.ts:281-320 | a run of a fresh harness writes the expected screenshots, has the expected outcome and ends with every handle released; the process is killed last whenever spawned, and the browser is closed just before that whenever launched |
| `VisualDebugger.ToolShotNeedsConnection` | scripts/mcp-visual-debugger.ts:301-306 | `03-tool-execution.png` is written only after a successful connection, once both earlier checkpoints were written |
| `VisualDebugger.ToolPathOnlyAtThirdCheckpoint` | scripts/mcp-visual-debugger.ts:301-306 | the tool-execution path is among the expected screenshots only when all three checkpoints were attempted |
| `VisualDebugger.Debugger.constructor` | scripts/mcp-visual-debugger.ts:19-22 | a new harness holds no browser, page or process |
| `VisualDebugger.Debugger.StartInspector` | scripts/mcp-visual-debugger.ts:24-90 | the callbacks run one event at a time and update the local URL and the promise; the method records the spawned process and returns what `StartupResult` says |
| `VisualDebugger.Debugger.StartBrowser` | scripts/mcp-visual-debugger.ts:92-111 | a failed launch assigns nothing; a failed `newPage` leaves the browser assigned |
| `VisualDebugger.Debugger.NavigateToInspector` | scripts/mcp-visual-debugger.ts:113-126 | without a page it throws `Browser not started`; otherwise it navigates or throws the navigation's Error |
| `VisualDebugger.Debugger.TakeScreenshot` | scripts/mcp-visual-debugger.ts:128-147 | without a page it throws `Browser not started`; otherwise it writes to and returns `projectRoot/screenshots/<filename>` |
| `VisualDebugger.Debugger.TestConnection` | scripts/mcp-visual-debugger.ts:149-210 | the result is the one `ConnectionResult` gives for the current handles |
| `VisualDebugger.Debugger.TestSayHelloTool` | scripts/mcp-visual-debugger.ts:212-262 | the result is the one `ToolResult` gives for the current handles |
| `VisualDebugger.Debugger.Cleanup` | scripts/mcp-visual-debugger.ts:264-279 | the handles and effects are those of `CleanupStage` |
| `VisualDebugger.Debugger.RunFullTest` | scripts/mcp-visual-debugger.ts:281-320 | the handles, effects and outcome are those of `FullTest`, about which `FullTestFollowsChecklist` is proved |
| `VisualDebugger.Debugger.CatchAndCleanup` | scripts/mcp-visual-debugger.ts:314-319 | after a `try` block that threw, the error-state screenshot is taken, and its own Error is the outcome; cleanup always follows |
| `VisualDebugger.Debugger.TryBlockSteps` | scripts/mcp-visual-debugger.ts:282-313 | the `try` block's handles, effects and thrown Error are those of `TryBlock` |
| `VisualDebugger.Debugger.StartUpSteps` | scripts/mcp-visual-debugger.ts:284-294 | the start-up steps stop at the first Error |
| `VisualDebugger.Debugger.OpenPageSteps` | scripts/mcp-visual-debugger.ts:291-294 | the browser and navigation steps stop at the first Error; the handles, effects and thrown Error are those of `OpenInspectorPage` |
| `VisualDebugger.Debugger.Checkpoints` | scripts/mcp-visual-debugger.ts:296-312 | the checkpoint steps stop at the first Error and skip the tool check after a failed connection |
| `HelloServer.ListTools` | src/index.ts:226-249 | exactly one tool, `say_hello`, whose one string property `name` is required |
| `HelloServer.Greeting` | src/index.ts:282 | the greeted name can be read back from the greeting |
| `HelloServer.GreetedName` | src/index.ts:282 | a name read back from a greeting fits exactly between the greeting's fixed head and tail |
| `HelloServer.GreetingInjective` | src/index.ts:282 | different names never receive the same greeting |
| `HelloServer.NameArgument` | src/index.ts:272-278 | the name is used exactly when arguments are given and `name` among them is a string, and it is that string |
| `HelloServer.CallTool` | src/index.ts:262-301 | succeeds exactly for `say_hello` with a string `name`, with one text item greeting that name; otherwise `Unknown tool: <name>` or `Invalid argument: name must be a string` |
| `HelloServer.ListResources` | src/index.ts:319-331 | exactly one plain-text resource, `mcp://server-info` |
| `HelloServer.JsRemainder` | src/index.ts:101 | JavaScript's `%` by a positive divisor lies in `[0, b)` for a non-negative dividend and in `(-b, 0]` for a negative one, and the dividend is the divisor times the quotient rounded toward zero plus the remainder |
| `HelloServer.UptimeOf` | src/index.ts:79-81 | the displayed minutes and seconds lie strictly between -60 and 60, and the hours are non-negative exactly when the uptime is |
| `HelloServer.UptimeDecomposition` | src/index.ts:75-81 | for uptime ms >= 0, `hours*3600 + minutes*60 + seconds` as displayed equals the whole seconds elapsed; minutes and seconds are below 60 |
| `HelloServer.NegativeUptimeBounds` | src/index.ts:75-101 | when the clock went backwards, the displayed minutes and seconds lie in `(-60, 0]` and the hours are negative |
| `HelloServer.OneSecondBackShowsMinusOneEverywhere` | src/index.ts:79-101 | a clock one second behind the start shows `-1h -1m -1s`, which adds up to -3661 seconds rather than -1 |
| `HelloServer.UptimeText` | src/index.ts:101 | the uptime text starts with a minus sign exactly when the uptime is negative, and ends with the seconds' unit |
| `HelloServer.ServerInfo` | src/index.ts:86-115 | the report carries the uptime line for the uptime it was given |
| `HelloServer.ReadResource` | src/index.ts:343-369 | succeeds exactly for `mcp://server-info`, with one plain-text item that carries the same URI and the uptime line; otherwise `Unknown resource: <uri>` |
| `HelloServer.ListPrompts` | src/index.ts:388-412 | exactly one prompt, `greeting-generator`, with the two required arguments `tone` and `context` in that order |
| `HelloServer.GreetingPrompt` | src/index.ts:152-157 | the prompt opens with `Create a greeting that is <tone>` and carries a `TONE: <tone>` line and a `CONTEXT: <context>` line |
| `HelloServer.PromptArg` | src/index.ts:433-434 | `args?.x` is the argument when present and empty otherwise |
| `HelloServer.GetPrompt` | src/index.ts:425-468 | succeeds exactly for `greeting-generator` with non-empty `tone` and `context`, with the templated description and one `user` text message equal to `generateGreetingPrompt(tone, context)`; otherwise `Unknown prompt: <name>` or `Both 'tone' and 'context' arguments are required` |
| `ScreenshotTool.Sanitize` | scripts/screenshot-tool.ts:56 | the sanitised timestamp has the same length, with every ':' and '.' replaced by '-' and every other character kept |
| `ScreenshotTool.SanitizeRemovesSeparators` | scripts/screenshot-tool.ts:56 | a sanitised timestamp holds no ':' and no '.' |
| `ScreenshotTool.SanitizeIdempotent` | scripts/screenshot-tool.ts:56 | sanitising twice is sanitising once |
| `ScreenshotTool.SanitizeKeepsCleanText` | scripts/screenshot-tool.ts:56 | a timestamp without ':' or '.' is left as it is |
| `ScreenshotTool.ChosenFilename` | scripts/screenshot-tool.ts:57 | the file name is never empty: a non-empty given name is used verbatim; a missing or empty one gives `screenshot-<sanitised timestamp>.png` |
| `ScreenshotTool.DefaultFilenameDeterminedByTimestamp` | scripts/screenshot-tool.ts:56-57 | two fallback file names coincide only for timestamps that agree outside the ':' and '.' positions |
| `ScreenshotTool.SelectorOf` | scripts/screenshot-tool.ts:51-64 | a selector is used exactly when it is present and non-empty |
| `ScreenshotTool.FullPage` | scripts/screenshot-tool.ts:74 | the capture is full-page unless `fullPage` is explicitly `false` |
| `ScreenshotTool.PageWork` | scripts/screenshot-tool.ts:36-81 | the `try` block returns `projectRoot/screenshots/<chosen file name>` exactly when loading, the directory, the element lookup and the capture all succeed, and then writes one image of the element or the page; when it throws it writes nothing, with `Selector <selector> not found` for an element that `page.$` does not find |
| `ScreenshotTool.Capture` | scripts/screenshot-tool.ts:29-85 | a held browser is kept and a missing one is replaced by a headless one when the launch succeeds; the capture returns a path exactly when a browser is available, the page opens and the `try` block succeeds |
| `ScreenshotTool.CloseRun` | scripts/screenshot-tool.ts:87-92 | `close` drops the browser, closing it only when one is held |
| `ScreenshotTool.PageAlwaysClosed` | scripts/screenshot-tool.ts:34-84 | the page a capture opens is closed on every path: when one was opened, the last action closes it and no page stays open; when none was opened, the capture threw |
| `ScreenshotTool.LaunchOnlyWhenNone` | scripts/screenshot-tool.ts:29-32 | a browser is launched, headless, only when none is held; a held browser is kept; a failed launch changes nothing |
| `ScreenshotTool.ReturnedPathIsWritten` | scripts/screenshot-tool.ts:55-80 | a returned path is `projectRoot/screenshots/<chosen file name>`; exactly one image was written, to it, of the element when there is a selector and of the page otherwise |
| `ScreenshotTool.MissingSelectorWritesNothing` | scripts/screenshot-tool.ts:64-70 | when loading (including `waitForSelector`) and the directory succeed but `page.$` finds no element for the selector, the capture throws `Selector <selector> not found` and writes nothing; a failing `waitForSelector` throws its own Error earlier |
| `ScreenshotTool.CloseIsIdempotent` | scripts/screenshot-tool.ts:87-92 | a second `close` does nothing |
| `ScreenshotTool.Tool.constructor` | scripts/screenshot-tool.ts:19-20 | a new tool holds no browser |
| `ScreenshotTool.Tool.Init` | scripts/screenshot-tool.ts:22-27 | the field is assigned only once the launch succeeds; a failed launch changes nothing |
| `ScreenshotTool.Tool.TakeScreenshot` | scripts/screenshot-tool.ts:29-85 | the browser field, actions and result are those of `Capture`, about which the lemmas above are proved |
| `ScreenshotTool.Tool.Close` | scripts/screenshot-tool.ts:87-92 | the browser field and actions are those of `CloseRun` |

## Left out

- Puppeteer itself is not modelled. This covers launch flags, viewports, `goto`, `waitForFunction` and
  `waitForSelector`, CSS and `:has-text` selectors, typing and clicking, and image bytes. Element
  presence and the success or failure of each page call are inputs.
- Where inside `testConnection` or `testSayHelloTool` a page call throws is not modelled. One input says
  whether something inside the `try` block throws; both methods turn that into a failure value.
- The port reclamation (`lsof … | xargs kill -9`) and its one-second wait are not modelled. It appears
  only as the `ReclaimPorts` effect. Its errors are swallowed in the source.
- `spawn` and `kill()` are recorded as `Spawn` and `KillProcess` effects, and nothing else about them is
  modelled.
- Timers and delays are not modelled. The settle waits and `waitForTimeout` are no-ops. The 15-second
  timer is a `TimerFired` event that always comes after the events the process reports in time.
- Promise interleaving is not modelled as concurrency. The start-up latch is a sequential fold over one
  ordered list of events.
- The file system is not modelled. `fs.mkdir` is a success-or-Error input. `path.join` is modelled as
  concatenation with '/', without normalisation. The project root derived from `import.meta.url` is a
  parameter.
- Console logging, the page `console` and `pageerror` listeners, and the CLI `main` functions (argument
  handling, usage exit) are left out.
- `Browser.close()` and `page.close()` are taken to succeed. An Error thrown by either is not modelled.
- The MCP SDK `Server`, the stdio transport and the JSON-RPC framing are left out. Only the handler bodies
  are modelled.
- In `generateServerInfo`, the dates, the process id, the Node.js version, the platform and the
  architecture are inputs. So is the uptime in milliseconds.
- `ScreenshotOptions.wait` and `viewport` only delay or resize the page, and are left out.
- `MCPInspectorConfig.inspectorUrl` and `screenshotPath` are never read by the harness, and are left out.
- Prompt arguments are typed as strings, as the protocol's request schema delivers them. The cast
  `args?.tone as string` on a non-string value is not modelled.
- Tool arguments are either `Text` or `NonText`, because the handler only asks `typeof … === "string"`.
- The default arguments `takeScreenshot(filename = 'mcp-inspector-screenshot.png')`
  (scripts/mcp-visual-debugger.ts:128) and `startBrowser(headless = false)` (scripts/mcp-visual-debugger.ts:92)
  are not modelled. `runFullTest` passes both arguments explicitly, so those defaults are used only by
  callers outside the core.
- `ScreenshotTool.Tool.Init` takes `headless` as a parameter, without the default `init(headless = true)`
  (scripts/screenshot-tool.ts:22). `takeScreenshot` calls `init()` without an argument
  (scripts/screenshot-tool.ts:31), so there the model passes the default's value `true`.
- The text typed into the command and arguments fields of the inspector's form is not modelled. Only
  whether each field exists is an input, and neither field changes the verdict.
- `VisualDebugger.StartInspectorStage`, `StartBrowserStage`, `NavigateStage` and `CleanupStage` state
  only that they write no screenshot. Their full behaviour is stated by the `Debugger` methods that are
  proved against them, and by the checklist lemmas.
