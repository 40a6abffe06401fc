/** The request handlers of the demonstration MCP server (src/index.ts):
    one tool (`say_hello`), one resource (`mcp://server-info`) and one prompt
    (`greeting-generator`). Every handler is a pure function of its request;
    a thrown Error becomes `Err(message)`. */
module HelloServer {
  import opened Common

  // ---------------------------------------------------------------------------
  // Request and response shapes
  // ---------------------------------------------------------------------------

  /** A JSON value passed as a tool argument. The handler only asks whether it
      is a string, so every other JSON value is `NonText`. */
  datatype ArgValue = Text(s: string) | NonText

  datatype PropertySchema = PropertySchema(name: string, kind: string, description: string)
  datatype ToolDef = ToolDef(name: string, description: string, properties: seq<PropertySchema>, required: seq<string>)

  /** A `{ type, text }` content item. */
  datatype Content = Content(kind: string, text: string)

  datatype ResourceDef = ResourceDef(uri: string, name: string, description: string, mimeType: string)
  datatype ResourceContent = ResourceContent(uri: string, mimeType: string, text: string)

  datatype PromptArgument = PromptArgument(name: string, description: string, required: bool)
  datatype PromptDef = PromptDef(name: string, description: string, arguments: seq<PromptArgument>)
  datatype PromptMessage = PromptMessage(role: string, content: Content)
  datatype PromptResult = PromptResult(description: string, messages: seq<PromptMessage>)

  /** The process facts `generateServerInfo` reads from the clock and from
      `process`; they are inputs here. */
  datatype HostFacts = HostFacts(started: string, now: string, pid: nat, nodeVersion: string, platform: string, arch: string)

  // ---------------------------------------------------------------------------
  // Tools
  // ---------------------------------------------------------------------------

  const GreetingHead := "Hello, "
  const GreetingTail := "! Welcome to my MCP server!"

  /** The listing handler: exactly one tool, `say_hello`, whose schema has one
      string property `name`, which is required. */
  function ListTools(): (r: seq<ToolDef>)
    ensures |r| == 1 && r[0].name == "say_hello"
    ensures r[0].required == ["name"]
    ensures |r[0].properties| == 1 && r[0].properties[0].name == "name" && r[0].properties[0].kind == "string"
  {
    [ToolDef("say_hello", "Says hello to the specified person",
             [PropertySchema("name", "string", "The name of the person to greet")],
             ["name"])]
  }

  /** The `say_hello` reply; GreetedName reads the name back out of it. */
  function Greeting(name: string): (g: string)
    ensures GreetedName(g) == Some(name)
  {
    var g := GreetingHead + name + GreetingTail;
    assert g[..|GreetingHead|] == GreetingHead;
    assert g[|g| - |GreetingTail|..] == GreetingTail;
    assert g[|GreetingHead|..|g| - |GreetingTail|] == name;
    g
  }

  /** Reads the greeted name back out of a greeting: the inverse of Greeting. */
  function GreetedName(g: string): (r: Option<string>)
    ensures r.Some? ==> |g| == |GreetingHead| + |r.value| + |GreetingTail|
  {
    if |g| >= |GreetingHead| + |GreetingTail|
       && g[..|GreetingHead|] == GreetingHead
       && g[|g| - |GreetingTail|..] == GreetingTail
    then Some(g[|GreetingHead|..|g| - |GreetingTail|])
    else None
  }

  /** Two different names never receive the same greeting. */
  lemma GreetingInjective(a: string, b: string)
    requires Greeting(a) == Greeting(b)
    ensures a == b
  {
  }

  /** `args?.name` narrowed by `typeof userName === "string"`. */
  function NameArgument(args: Option<map<string, ArgValue>>): (r: Option<string>)
    ensures r.Some? <==> args.Some? && "name" in args.value && args.value["name"].Text?
    ensures r.Some? ==> args.value["name"] == Text(r.value)
  {
    if args.Some? && "name" in args.value && args.value["name"].Text? then Some(args.value["name"].s) else None
  }

  /** The CallTool handler. It succeeds exactly for `say_hello` with a string
      `name`, and then answers with one text item greeting that name. */
  function CallTool(name: string, args: Option<map<string, ArgValue>>): (r: Result<seq<Content>>)
    ensures r.Ok? <==> name == "say_hello" && NameArgument(args).Some?
    ensures r.Ok? ==> |r.value| == 1 && r.value[0].kind == "text"
                      && GreetedName(r.value[0].text) == NameArgument(args)
    ensures name != "say_hello" ==> r == Err("Unknown tool: " + name)
    ensures name == "say_hello" && NameArgument(args).None? ==> r == Err("Invalid argument: name must be a string")
  {
    if name == "say_hello" then
      match NameArgument(args)
      case None => Err("Invalid argument: name must be a string")
      case Some(userName) =>
        Ok([Content("text", Greeting(userName))])
    else
      Err("Unknown tool: " + name)
  }

  // ---------------------------------------------------------------------------
  // Resources
  // ---------------------------------------------------------------------------

  const ServerInfoUri := "mcp://server-info"

  /** The listing handler: exactly one plain-text resource, `mcp://server-info`. */
  function ListResources(): (r: seq<ResourceDef>)
    ensures |r| == 1 && r[0].uri == ServerInfoUri && r[0].mimeType == "text/plain"
  {
    [ResourceDef(ServerInfoUri, "Server Information",
                 "Current server status, statistics, and configuration details", "text/plain")]
  }

  /** Uptime as the report shows it: whole hours, then minutes and seconds
      within the hour and the minute. */
  datatype Uptime = Uptime(hours: int, minutes: int, seconds: int)

  /** The quotient rounded toward zero, as JavaScript's `%` pairs with. */
  function TruncDiv(a: int, b: int): int
    requires b > 0
  {
    if a >= 0 then a / b else -((-a) / b)
  }

  /** JavaScript's `%`: the remainder takes the sign of the dividend, and
      dividend = divisor * truncated quotient + remainder. */
  function JsRemainder(a: int, b: int): (r: int)
    requires b > 0
    ensures a >= 0 ==> 0 <= r < b
    ensures a < 0 ==> -b < r <= 0
    ensures a == b * TruncDiv(a, b) + r
  {
    if a >= 0 then a % b
    else
      var q := (-a) / b;
      assert -a == b * q + (-a) % b;
      -((-a) % b)
  }

  /** `Math.floor(ms / 1000)`, then minutes and hours by `Math.floor(/ 60)`;
      minutes and seconds are shown `% 60`. Dafny's `/` by a positive divisor
      is the floor, as `Math.floor` of the quotient is. */
  function UptimeOf(ms: int): (u: Uptime)
    ensures -60 < u.minutes < 60 && -60 < u.seconds < 60
    ensures u.hours >= 0 <==> ms >= 0
  {
    var seconds := ms / 1000;
    var minutes := seconds / 60;
    var hours := minutes / 60;
    Uptime(hours, JsRemainder(minutes, 60), JsRemainder(seconds, 60))
  }

  function TotalSeconds(u: Uptime): int
  {
    u.hours * 3600 + u.minutes * 60 + u.seconds
  }

  /** For a non-negative uptime the three displayed numbers add back up to the
      whole seconds elapsed, and minutes and seconds are each below 60. */
  lemma UptimeDecomposition(ms: int)
    requires ms >= 0
    ensures TotalSeconds(UptimeOf(ms)) == ms / 1000
    ensures 0 <= UptimeOf(ms).minutes < 60 && 0 <= UptimeOf(ms).seconds < 60
    ensures UptimeOf(ms).hours >= 0
  {
    var s := ms / 1000;
    var m := s / 60;
    var h := m / 60;
    assert s == m * 60 + s % 60;
    assert m == h * 60 + m % 60;
    assert s == h * 3600 + (m % 60) * 60 + s % 60;
  }

  /** On a clock that has gone backwards the shown minutes and seconds are
      negative or zero, never below -59. */
  lemma NegativeUptimeBounds(ms: int)
    requires ms < 0
    ensures -60 < UptimeOf(ms).minutes <= 0 && -60 < UptimeOf(ms).seconds <= 0
    ensures UptimeOf(ms).hours < 0
  {
    var s := ms / 1000;
    assert s < 0;
    var m := s / 60;
    assert m < 0;
  }

  /** A clock one second behind the start is shown as minus one in every
      field, so the three displayed numbers add up to -3661 seconds rather
      than -1. */
  lemma OneSecondBackShowsMinusOneEverywhere()
    ensures UptimeOf(-1000) == Uptime(-1, -1, -1)
    ensures TotalSeconds(UptimeOf(-1000)) == -3661 && -1000 / 1000 == -1
  {
    assert -1000 / 1000 == -1;
    assert -1 / 60 == -1;
  }

  /** The shown uptime starts with a minus sign exactly when the uptime is
      negative, and ends with the seconds' unit. */
  function UptimeText(ms: int): (r: string)
    ensures |r| > 0 && (r[0] == '-' <==> ms < 0)
    ensures r[|r| - 1] == 's'
  {
    var u := UptimeOf(ms);
    var hours := IntToString(u.hours);
    var r := hours + ("h " + IntToString(u.minutes) + "m " + IntToString(u.seconds) + "s");
    assert r[0] == hours[0];
    r
  }

  const CheckMark: char := '\U{2713}'

  /** The text of `generateServerInfo`, with its clock and process facts passed
      in and the uptime in milliseconds given. */
  function ServerInfo(host: HostFacts, uptimeMs: int): (r: string)
    ensures Contains(r, UptimeLine(uptimeMs))
  {
    ContainsMiddle(ServerInfoBefore(host), UptimeLine(uptimeMs), ServerInfoAfter(host));
    ServerInfoBefore(host) + UptimeLine(uptimeMs) + ServerInfoAfter(host)
  }

  /** The report up to the uptime line. */
  function ServerInfoBefore(host: HostFacts): string
  {
    ServerInfoHead
    + "- Started: " + host.started + "\n"
    + "- Current Time: " + host.now + "\n"
  }

  /** The report after the uptime line. */
  function ServerInfoAfter(host: HostFacts): string
  {
    "- Process ID: " + NatToString(host.pid) + "\n"
    + "- Node.js Version: " + host.nodeVersion + "\n"
    + "- Platform: " + host.platform + "\n"
    + "- Architecture: " + host.arch + "\n"
    + ServerInfoTail
  }

  function UptimeLine(uptimeMs: int): string
  {
    "- Uptime: " + UptimeText(uptimeMs) + "\n"
  }

  const ServerInfoHead: string :=
    "Hello MCP Server Information\n"
    + "=============================\n"
    + "\n"
    + "Server Details:\n"
    + "- Name: hello-mcp-server\n"
    + "- Version: 1.0.0\n"
    + "- Description: A simple demonstration MCP server with greeting tools and server information resources\n"
    + "\n"
    + "Available Features:\n"
    + "- Tools: say_hello - Interactive greeting tool that welcomes users with personalized messages\n"
    + "- Resources: server-info - Real-time server information and statistics\n"
    + "\n"
    + "Server Statistics:\n"

  const ServerInfoTail: string :=
    "\n"
    + "Capabilities:\n"
    + [CheckMark] + " Tool execution via CallTool requests\n"
    + [CheckMark] + " Resource discovery via ListResources requests  \n"
    + [CheckMark] + " Resource reading via ReadResource requests\n"
    + [CheckMark] + " Standard I/O transport communication\n"
    + [CheckMark] + " JSON-RPC 2.0 protocol compliance\n"
    + "\n"
    + "This server demonstrates basic MCP functionality including both interactive tools and informational resources.\n"
    + "For more information about the Model Context Protocol, visit: https://modelcontextprotocol.io/"

  /** The ReadResource handler: `mcp://server-info` yields one plain-text item
      carrying the same URI and the server report; any other URI throws. */
  function ReadResource(uri: string, host: HostFacts, uptimeMs: int): (r: Result<seq<ResourceContent>>)
    ensures r.Ok? <==> uri == ServerInfoUri
    ensures r.Ok? ==> |r.value| == 1 && r.value[0].uri == uri && r.value[0].mimeType == "text/plain"
                      && Contains(r.value[0].text, UptimeLine(uptimeMs))
    ensures r.Err? ==> r.error == "Unknown resource: " + uri
  {
    if uri == ServerInfoUri then
      Ok([ResourceContent(ServerInfoUri, "text/plain", ServerInfo(host, uptimeMs))])
    else
      Err("Unknown resource: " + uri)
  }

  // ---------------------------------------------------------------------------
  // Prompts
  // ---------------------------------------------------------------------------

  /** The listing handler: exactly one prompt, `greeting-generator`, with the
      two required arguments `tone` and `context`. */
  function ListPrompts(): (r: seq<PromptDef>)
    ensures |r| == 1 && r[0].name == "greeting-generator"
    ensures |r[0].arguments| == 2
    ensures r[0].arguments[0].name == "tone" && r[0].arguments[1].name == "context"
    ensures r[0].arguments[0].required && r[0].arguments[1].required
  {
    [PromptDef("greeting-generator", GreetingGeneratorDescription,
       [PromptArgument("tone", ToneDescription, true), PromptArgument("context", ContextDescription, true)])]
  }

  const GreetingGeneratorDescription := "Generate customized greeting templates based on tone and context"
  const ToneDescription := "The tone of the greeting (formal, casual, friendly)"
  const ContextDescription := "The context where the greeting will be used (meeting, email, introduction)"

  const PromptIntro := "Create a greeting that is "
  const PromptFor := " and is written for "
  const PromptGap := ".\n\n"
  const PromptClosing := "\nPlease generate a greeting using the specified tone and context."

  /** `generateGreetingPrompt`: the tone and context plugged into a fixed
      template. The tone follows the fixed opening words, and the prompt
      carries a `TONE:` line and a `CONTEXT:` line naming the two arguments. */
  function GreetingPrompt(tone: string, context: string): (p: string)
    ensures |PromptIntro| + |tone| <= |p| && p[..|PromptIntro| + |tone|] == PromptIntro + tone
    ensures Contains(p, ToneLine(tone)) && Contains(p, ContextLine(context))
  {
    var opening := PromptIntro + tone + PromptFor + context + PromptGap;
    var p := opening + ToneLine(tone) + ContextLine(context) + PromptClosing;
    ContainsMiddle(opening, ToneLine(tone), ContextLine(context) + PromptClosing);
    assert p == opening + ToneLine(tone) + (ContextLine(context) + PromptClosing);
    ContainsMiddle(opening + ToneLine(tone), ContextLine(context), PromptClosing);
    assert p[..|PromptIntro| + |tone|] == PromptIntro + tone;
    p
  }

  function ToneLine(tone: string): string
  {
    "TONE: " + tone + "\n"
  }

  function ContextLine(context: string): string
  {
    "CONTEXT: " + context + "\n"
  }

  /** A prompt argument as the handler sees it: `args?.x` is falsy when the
      argument is missing or empty. Prompt arguments are strings by the
      protocol's request schema. */
  function PromptArg(args: Option<map<string, string>>, key: string): (v: string)
    ensures args.Some? && key in args.value ==> v == args.value[key]
    ensures !(args.Some? && key in args.value) ==> v == ""
  {
    if args.Some? && key in args.value then args.value[key] else ""
  }

  /** The GetPrompt handler. */
  function GetPrompt(name: string, args: Option<map<string, string>>): (r: Result<PromptResult>)
    ensures r.Ok? <==> name == "greeting-generator"
                       && PromptArg(args, "tone") != "" && PromptArg(args, "context") != ""
    ensures r.Ok? ==>
      var tone, context := PromptArg(args, "tone"), PromptArg(args, "context");
      && r.value.description == "A customized greeting template for " + context + " situations with a " + tone + " tone"
      && |r.value.messages| == 1 && r.value.messages[0].role == "user"
      && r.value.messages[0].content == Content("text", GreetingPrompt(tone, context))
    ensures name != "greeting-generator" ==> r == Err("Unknown prompt: " + name)
    ensures name == "greeting-generator" && (PromptArg(args, "tone") == "" || PromptArg(args, "context") == "")
            ==> r == Err("Both 'tone' and 'context' arguments are required")
  {
    if name == "greeting-generator" then
      var tone := PromptArg(args, "tone");
      var context := PromptArg(args, "context");
      if tone == "" || context == "" then
        Err("Both 'tone' and 'context' arguments are required")
      else
        Ok(PromptResult("A customized greeting template for " + context + " situations with a " + tone + " tone",
                        [PromptMessage("user", Content("text", GreetingPrompt(tone, context)))]))
    else
      Err("Unknown prompt: " + name)
  }
}
