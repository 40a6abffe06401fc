/** The start-up latch of `startInspector`
    (scripts/mcp-visual-debugger.ts:42-89). The inspector's stdout and stderr
    chunks, its `close` notification and the 15-second timer are callbacks
    that update the local `inspectorUrl` and settle one promise. Here they are
    one sequence of events folded in order; a promise that is already settled
    ignores later `resolve` and `reject` calls, as JavaScript promises do. */
module InspectorLatch {
  import opened Common
  import UrlPattern

  /** What the inspector process and the timer report, in the order the
      callbacks run. `Close(None)` is a process ended by a signal, whose exit
      code is `null`. */
  datatype Event =
    | Stdout(chunk: string)
    | Stderr(chunk: string)
    | Close(code: Option<int>)
    | TimerFired

  datatype StartError = PortInUse | ProcessExited(code: Option<int>) | StartTimeout

  const ExitPrefix := "Inspector process exited with code "

  /** `${code}` for the exit code of the `close` event. */
  function ExitCodeText(code: Option<int>): string
  {
    match code
    case None => "null"
    case Some(c) => IntToString(c)
  }

  /** The message of the Error the promise is rejected with. An exit message
      carries the exit code, which reads back from the text after the fixed
      prefix. */
  function ErrorMessage(e: StartError): (m: string)
    ensures e.ProcessExited? ==> |m| > |ExitPrefix| && m[..|ExitPrefix|] == ExitPrefix
    ensures e.ProcessExited? && e.code.Some? ==> DecimalValue(m[|ExitPrefix|..]) == e.code.value
    ensures e.ProcessExited? && e.code.None? ==> m[|ExitPrefix|..] == "null"
    ensures e.ProcessExited? ==> m[|ExitPrefix|..] == ExitCodeText(e.code)
  {
    match e
    case PortInUse => "Inspector port is already in use. Please kill existing processes."
    case ProcessExited(code) =>
      var m := ExitPrefix + ExitCodeText(code);
      assert m[..|ExitPrefix|] == ExitPrefix && m[|ExitPrefix|..] == ExitCodeText(code);
      m
    case StartTimeout => "Timeout waiting for inspector to start"
  }

  /** The rejection message tells the causes apart, and two exits apart by
      their codes. */
  lemma ErrorMessageInjective(a: StartError, b: StartError)
    requires ErrorMessage(a) == ErrorMessage(b)
    ensures a == b
  {
    if a.ProcessExited? && b.ProcessExited? {
      ExitCodeTextInjective(a.code, b.code);
    }
  }

  /** `null` and the decimal text of every code print differently. */
  lemma ExitCodeTextInjective(c1: Option<int>, c2: Option<int>)
    requires ExitCodeText(c1) == ExitCodeText(c2)
    ensures c1 == c2
  {
    assert ExitCodeText(c1)[0] == ExitCodeText(c2)[0];
    if c1.Some? && c2.Some? {
      IntToStringInjective(c1.value, c2.value);
    }
  }

  datatype Promise = Pending | Resolved(url: string) | Rejected(reason: StartError)

  /** The closure state: the local `inspectorUrl` ("" until a URL is found)
      and the promise. */
  datatype Latch = Latch(url: string, promise: Promise)

  const Start := Latch("", Pending)
  const PortInUseMarker := "PORT IS IN USE"

  /** `resolve`/`reject`: only a pending promise takes the new state. */
  function Settle(p: Promise, q: Promise): (r: Promise)
    ensures p.Pending? ==> r == q
    ensures !p.Pending? ==> r == p
  {
    if p.Pending? then q else p
  }

  /** One callback. Once a URL is latched no callback changes anything; a
      settled promise stays as it is; the URL only goes from "" to the one a
      stdout chunk carries. */
  function Step(st: Latch, e: Event): (r: Latch)
    ensures st.url != "" ==> r == st
    ensures !st.promise.Pending? ==> r.promise == st.promise
    ensures r.url == st.url || (st.url == "" && UrlIn(e) == Some(r.url))
  {
    match e
    case Stdout(chunk) =>
      (match UrlPattern.ExtractUrl(chunk)
       case Some(u) =>
         if st.url == "" then Latch(u, Settle(st.promise, Resolved(u))) else st
       case None => st)
    case Stderr(chunk) =>
      if st.url == "" && Contains(chunk, PortInUseMarker)
      then st.(promise := Settle(st.promise, Rejected(PortInUse)))
      else st
    case Close(code) =>
      if code != Some(0) && st.url == ""
      then st.(promise := Settle(st.promise, Rejected(ProcessExited(code))))
      else st
    case TimerFired =>
      if st.url == "" then st.(promise := Settle(st.promise, Rejected(StartTimeout))) else st
  }

  /** The callbacks for `events`, run in order from `st`; after a URL was
      latched they change nothing. */
  function Feed(st: Latch, events: seq<Event>): (r: Latch)
    ensures st.url != "" ==> r == st
    decreases |events|
  {
    if events == [] then st else Feed(Step(st, events[0]), events[1..])
  }

  lemma {:induction false} FeedAppend(st: Latch, a: seq<Event>, b: seq<Event>)
    ensures Feed(st, a + b) == Feed(Feed(st, a), b)
    decreases |a|
  {
    if a != [] {
      assert (a + b)[0] == a[0] && (a + b)[1..] == a[1..] + b;
      FeedAppend(Step(st, a[0]), a[1..], b);
      assert Feed(st, a + b) == Feed(Step(st, a[0]), a[1..] + b);
    } else {
      assert a + b == b;
    }
  }

  /** The loop step: feeding one more event is one more `Step`. */
  lemma FeedSnoc(st: Latch, a: seq<Event>, e: Event)
    ensures Feed(st, a + [e]) == Step(Feed(st, a), e)
  {
    FeedAppend(st, a, [e]);
  }

  // ---------------------------------------------------------------------------
  // The reference: the first decisive event decides
  // ---------------------------------------------------------------------------

  /** The URL a stdout event carries, if it carries one. */
  function UrlIn(e: Event): Option<string>
  {
    if e.Stdout? then UrlPattern.ExtractUrl(e.chunk) else None
  }

  /** What one event decides on its own while no URL has been found: a URL
      resolves; the port-in-use signature on stderr, an exit with a code other
      than 0 and the timer reject; anything else decides nothing. */
  function Verdict(e: Event): Promise
  {
    match e
    case Stdout(_) => if UrlIn(e).Some? then Resolved(UrlIn(e).value) else Pending
    case Stderr(chunk) => if Contains(chunk, PortInUseMarker) then Rejected(PortInUse) else Pending
    case Close(code) => if code != Some(0) then Rejected(ProcessExited(code)) else Pending
    case TimerFired => Rejected(StartTimeout)
  }

  /** The verdict of the first event that decides anything. */
  function FirstVerdict(events: seq<Event>): Promise
    decreases |events|
  {
    if events == [] then Pending
    else if !Verdict(events[0]).Pending? then Verdict(events[0])
    else FirstVerdict(events[1..])
  }

  /** The first URL any stdout chunk carries. */
  function FirstUrl(events: seq<Event>): Option<string>
    decreases |events|
  {
    if events == [] then None
    else if UrlIn(events[0]).Some? then UrlIn(events[0])
    else FirstUrl(events[1..])
  }

  /** A settled promise stays as it is, whatever follows. */
  lemma {:induction false} SettledStaysSettled(st: Latch, events: seq<Event>)
    requires !st.promise.Pending?
    ensures Feed(st, events).promise == st.promise
    decreases |events|
  {
    if events != [] {
      SettledStaysSettled(Step(st, events[0]), events[1..]);
    }
  }

  /** From a fresh state, the promise ends as the first decisive event says:
      the four settling conditions race and the first to occur wins. */
  lemma {:induction false} FeedDecidesByFirstVerdict(st: Latch, events: seq<Event>)
    requires st.url == "" && st.promise.Pending?
    ensures Feed(st, events).promise == FirstVerdict(events)
    decreases |events|
  {
    if events != [] {
      var e := events[0];
      var next := Step(st, e);
      if Verdict(e).Pending? {
        assert next == st;
        FeedDecidesByFirstVerdict(next, events[1..]);
      } else {
        assert next.promise == Verdict(e);
        SettledStaysSettled(next, events[1..]);
      }
    }
  }

  /** The local `inspectorUrl` ends as the first URL any stdout chunk carried,
      even when the promise had already been rejected. */
  lemma {:induction false} FeedLatchesFirstUrl(st: Latch, events: seq<Event>)
    requires st.url == ""
    ensures Feed(st, events).url == (if FirstUrl(events).Some? then FirstUrl(events).value else "")
    decreases |events|
  {
    if events != [] {
      var e := events[0];
      var next := Step(st, e);
      if UrlIn(e).None? {
        assert next.url == "";
        FeedLatchesFirstUrl(next, events[1..]);
      }
    }
  }

  /** A resolved promise holds the URL the latch keeps. */
  lemma {:induction false} ResolvedWithLatchedUrl(st: Latch, events: seq<Event>)
    requires st.promise.Resolved? ==> st.url == st.promise.url && st.url != ""
    requires st.promise.Pending? ==> st.url == ""
    ensures Feed(st, events).promise.Resolved? ==> Feed(st, events).url == Feed(st, events).promise.url
    ensures Feed(st, events).promise.Resolved? ==> Feed(st, events).url != ""
    decreases |events|
  {
    if events != [] {
      var e := events[0];
      var next := Step(st, e);
      if next.promise.Resolved? && !st.promise.Resolved? {
        SettledStaysSettled(next, events[1..]);
      } else {
        ResolvedWithLatchedUrl(next, events[1..]);
      }
    }
  }

  // ---------------------------------------------------------------------------
  // Start-up as a whole: the timer is armed unconditionally and fires last
  // ---------------------------------------------------------------------------

  /** The promise `startInspector` returns, given what the process reports
      before the 15-second timer fires. Start-up always settles: with the
      first decisive event, or, when none occurred before the timer, with the
      timeout. */
  function Startup(events: seq<Event>): (p: Promise)
    ensures p == if FirstVerdict(events).Pending? then Rejected(StartTimeout) else FirstVerdict(events)
    ensures !p.Pending?
  {
    FeedDecidesByFirstVerdict(Start, events + [TimerFired]);
    FirstVerdictThenTimer(events);
    Feed(Start, events + [TimerFired]).promise
  }

  lemma {:induction false} FirstVerdictThenTimer(events: seq<Event>)
    ensures FirstVerdict(events + [TimerFired])
            == if FirstVerdict(events).Pending? then Rejected(StartTimeout) else FirstVerdict(events)
    decreases |events|
  {
    if events != [] {
      assert (events + [TimerFired])[1..] == events[1..] + [TimerFired];
      FirstVerdictThenTimer(events[1..]);
    }
  }

  /** Once settled, any further event leaves the promise as it was. */
  lemma SettleOnce(events: seq<Event>, later: seq<Event>)
    requires !Feed(Start, events).promise.Pending?
    ensures Feed(Start, events + later).promise == Feed(Start, events).promise
  {
    FeedAppend(Start, events, later);
    SettledStaysSettled(Feed(Start, events), later);
  }

  /** Once a URL is found, later URLs change neither the URL nor the promise. */
  lemma FirstUrlWins(events: seq<Event>, later: seq<Event>)
    requires Feed(Start, events).url != ""
    ensures Feed(Start, events + later).url == Feed(Start, events).url
    ensures Feed(Start, events + later).promise == Feed(Start, events).promise
  {
    FeedAppend(Start, events, later);
    FeedDecidesByFirstVerdict(Start, events);
    FeedLatchesFirstUrl(Start, events);
    FirstUrlIsDecisive(events);
    SettledStaysSettled(Feed(Start, events), later);
  }

  /** A URL among the events means some event has decided. */
  lemma {:induction false} FirstUrlIsDecisive(events: seq<Event>)
    requires FirstUrl(events).Some?
    ensures !FirstVerdict(events).Pending?
    decreases |events|
  {
    if UrlIn(events[0]).None? {
      FirstUrlIsDecisive(events[1..]);
    }
  }

  /** An exit with code 0 before any URL settles nothing: start-up still waits
      for a URL or the timer. */
  lemma CleanExitKeepsWaiting(events: seq<Event>)
    requires Feed(Start, events).promise.Pending?
    ensures Feed(Start, events + [Close(Some(0))]) == Feed(Start, events)
  {
    FeedSnoc(Start, events, Close(Some(0)));
  }
}
