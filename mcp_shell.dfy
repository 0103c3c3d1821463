/** The tmux session server of mcp/mcp-shell-session.mjs: single-quote escaping,
    the four `shell.*` tools, and the JSON-RPC dispatch in `handleMessage`.
    Commands reach the container through an exec wrapper; what a command does
    there is an oracle `shell`, asked with the command line and its position
    in the run. */
module McpShell {
  import opened JsText
  import opened Utf8
  import opened McpFraming

  /* ----------------------------- shell quoting ------------------------------ */

  function QuoteCount(s: string): nat {
    if s == [] then 0 else (if s[0] == '\'' then 1 else 0) + QuoteCount(s[1..])
  }

  /** The body of `shq`: every `'` becomes `'\''` (close, escaped quote, reopen). */
  function Escape(s: string): string {
    if s == [] then []
    else (if s[0] == '\'' then "'\\''" else [s[0]]) + Escape(s[1..])
  }

  /** `shq(s)`: the string wrapped in single quotes, inner quotes escaped. */
  function Shq(s: string): string {
    "'" + Escape(s) + "'"
  }

  /** Each quote grows by three characters, and the two outer quotes are added. */
  lemma {:induction false} ShqLength(s: string)
    ensures |Shq(s)| == |s| + 2 + 3 * QuoteCount(s)
  {
    EscapeLength(s);
  }

  lemma {:induction false} EscapeLength(s: string)
    ensures |Escape(s)| == |s| + 3 * QuoteCount(s)
  {
    if s != [] {
      EscapeLength(s[1..]);
    }
  }

  /** Index of the first `'` at or after `i`. */
  function QuoteFrom(w: string, i: nat): (k: Option<nat>)
    ensures k.Some? ==> i <= k.value < |w| && w[k.value] == '\''
    ensures k.Some? ==> forall j :: i <= j < k.value ==> w[j] != '\''
    ensures k.None? ==> forall j :: i <= j < |w| ==> w[j] != '\''
    decreases |w| - i
  {
    if i >= |w| then None else if w[i] == '\'' then Some(i) else QuoteFrom(w, i + 1)
  }

  /** How a POSIX shell reads a word made of single-quoted runs and backslash-escaped
      characters (section 2.2 of the Shell Command Language, POSIX.1-2017): a quoted run
      stands for its characters up to the closing quote, `\c` stands for `c`. A word with
      any other character outside quotes, or an unterminated quote, is `None`. */
  function Unquote(w: string): Option<string>
    decreases |w|
  {
    if w == [] then Some([])
    else if w[0] == '\'' then
      match QuoteFrom(w, 1)
      case None => None
      case Some(k) =>
        match Unquote(w[k + 1..])
        case None => None
        case Some(r) => Some(w[1..k] + r)
    else if w[0] == '\\' && |w| >= 2 then
      match Unquote(w[2..])
      case None => None
      case Some(r) => Some([w[1]] + r)
    else None
  }

  predicate QuoteFree(p: string) {
    forall j :: 0 <= j < |p| ==> p[j] != '\''
  }

  lemma ClosingQuote(w: string, p: string)
    requires |w| > |p| + 1 && w[1..|p| + 1] == p && w[|p| + 1] == '\'' && QuoteFree(p)
    ensures QuoteFrom(w, 1) == Some(|p| + 1)
  {
    forall j | 1 <= j < |p| + 1 ensures w[j] != '\'' {
      assert w[j] == p[j - 1];
    }
  }

  /** A quoted run reads as its quote-free contents, then the shell goes on with what follows. */
  lemma QuotedRun(p: string, tail: string)
    requires QuoteFree(p)
    ensures Unquote("'" + p + "'" + tail) ==
      (match Unquote(tail) case None => None case Some(r) => Some(p + r))
  {
    var w := "'" + p + "'" + tail;
    ClosingQuote(w, p);
    assert w[1..|p| + 1] == p;
    assert w[|p| + 2..] == tail;
  }

  /** `\'` reads as one quote character. */
  lemma EscapedQuote(tail: string)
    ensures Unquote("\\'" + tail) ==
      (match Unquote(tail) case None => None case Some(r) => Some("'" + r))
  {
    var w := "\\'" + tail;
    assert w[2..] == tail;
  }

  /** A quoted run already holding the quote-free `p` reads back as `p` followed by `s`. */
  lemma {:induction false} UnquoteEscaped(p: string, s: string)
    requires QuoteFree(p)
    ensures Unquote("'" + p + Escape(s) + "'") == Some(p + s)
    decreases |s|
  {
    if s == [] {
      assert "'" + p + Escape(s) + "'" == "'" + p + "'" + [];
      QuotedRun(p, []);
      assert p + [] == p + s;
    } else if s[0] != '\'' {
      var p' := p + [s[0]];
      calc {
        Unquote("'" + p + Escape(s) + "'");
        { EscapePlain(p, s); }
        Unquote("'" + p' + Escape(s[1..]) + "'");
        { UnquoteEscaped(p', s[1..]); }
        Some(p' + s[1..]);
        { assert p' + s[1..] == p + s; }
        Some(p + s);
      }
    } else {
      var inner := "'" + [] + Escape(s[1..]) + "'";
      calc {
        Unquote("'" + p + Escape(s) + "'");
        { EscapeQuote(p, s); }
        Unquote("'" + p + "'" + ("\\'" + inner));
        { QuotedRun(p, "\\'" + inner); EscapedQuote(inner); UnquoteEscaped([], s[1..]); }
        Some(p + ("'" + ([] + s[1..])));
        { assert p + ("'" + ([] + s[1..])) == p + s; }
        Some(p + s);
      }
    }
  }

  /** An ordinary character moves from the escaped text into the quoted run. */
  lemma EscapePlain(p: string, s: string)
    requires s != [] && s[0] != '\''
    ensures "'" + p + Escape(s) + "'" == "'" + (p + [s[0]]) + Escape(s[1..]) + "'"
  {
  }

  /** A quote closes the run, appears escaped, and a new run opens. */
  lemma EscapeQuote(p: string, s: string)
    requires s != [] && s[0] == '\''
    ensures "'" + p + Escape(s) + "'" == "'" + p + "'" + ("\\'" + ("'" + [] + Escape(s[1..]) + "'"))
  {
  }

  /** The shell reads `shq(s)` back as exactly `s`, whatever `s` holds. */
  lemma ShqRoundTrip(s: string)
    ensures Unquote(Shq(s)) == Some(s)
  {
    UnquoteEscaped([], s);
    assert "'" + [] + Escape(s) + "'" == Shq(s);
    assert [] + s == s;
  }

  /* --------------------------------- commands -------------------------------- */

  const DefaultWrap := "/usr/local/bin/container exec coderunner bash -lc"

  /** `WRAP`: `MCP_SHELL_EXEC_WRAPPER`, or the default wrapper when it is unset or empty. */
  function WrapFrom(env: Env): (w: string)
    ensures w != ""
    ensures "MCP_SHELL_EXEC_WRAPPER" in env && env["MCP_SHELL_EXEC_WRAPPER"] != "" ==> w == env["MCP_SHELL_EXEC_WRAPPER"]
    ensures EnvGet(env, "MCP_SHELL_EXEC_WRAPPER") == "" ==> w == DefaultWrap
  {
    Or(EnvGet(env, "MCP_SHELL_EXEC_WRAPPER"), DefaultWrap)
  }

  /** The commands the server runs inside the container. */
  datatype Command =
    | ProbeTmux
    | InstallTmux
    | OpenSession(name: string)
    | SendText(sessionId: string, text: string)
    | SendChords(sessionId: string, keys: seq<string>)
    | CapturePane(sessionId: string, lines: nat)
    | KillSession(sessionId: string)

  function ShqAll(keys: seq<string>): (r: seq<string>)
    ensures |r| == |keys| && forall i :: 0 <= i < |keys| ==> r[i] == Shq(keys[i])
  {
    if keys == [] then [] else [Shq(keys[0])] + ShqAll(keys[1..])
  }

  /** The shell text of each command, every user-supplied value quoted with `shq`. */
  function CommandText(c: Command): string {
    match c
    case ProbeTmux => "tmux -V"
    case InstallTmux => "apt-get update -y && apt-get install -y tmux"
    case OpenSession(name) =>
      "tmux has-session -t " + Shq(name) + " 2>/dev/null || tmux new-session -d -s " + Shq(name)
    case SendText(sid, text) => "tmux send-keys -t " + Shq(sid) + " -- " + Shq(text)
    case SendChords(sid, keys) => "tmux send-keys -t " + Shq(sid) + " " + JoinSpaces(ShqAll(keys))
    case CapturePane(sid, n) => "tmux capture-pane -t " + Shq(sid) + " -p -S -" + NatToDecimal(n) + " -E -1"
    case KillSession(sid) => "tmux kill-session -t " + Shq(sid)
  }

  /** The line `runInContainer` hands to `exec`: the wrapper, then the command as one quoted word. */
  function CommandLine(wrap: string, c: Command): string {
    wrap + " " + Shq(CommandText(c))
  }

  /** The wrapper's shell hands `bash -lc` exactly the command's text, as one argument. */
  lemma CommandLineCarriesText(wrap: string, c: Command)
    ensures |CommandLine(wrap, c)| >= |wrap| + 1
    ensures Unquote(CommandLine(wrap, c)[|wrap| + 1..]) == Some(CommandText(c))
  {
    var line := CommandLine(wrap, c);
    assert line[|wrap| + 1..] == Shq(CommandText(c));
    ShqRoundTrip(CommandText(c));
  }

  /* ----------------------------- `Math.min`/`max` ----------------------------- */

  /** The order of the extended reals on numbers that are not NaN. */
  predicate AtMost(x: JsNumber, y: JsNumber) {
    && !x.NaN? && !y.NaN?
    && (x.NegInf? || y.PosInf? || (x.Finite? && y.Finite? && x.v <= y.v))
  }

  function JsMin(a: JsNumber, b: JsNumber): (r: JsNumber)
    ensures a.NaN? || b.NaN? <==> r.NaN?
    ensures !r.NaN? ==> (r == a || r == b) && AtMost(r, a) && AtMost(r, b)
    ensures a.Finite? && b.Finite? ==> r == Finite(if a.v <= b.v then a.v else b.v)
    ensures !r.NaN? && (a.NegInf? || b.NegInf?) ==> r.NegInf?
    ensures a.PosInf? && !b.NaN? ==> r == b
    ensures b.PosInf? && !a.NaN? ==> r == a
  {
    if a.NaN? || b.NaN? then NaN
    else if a.NegInf? || b.NegInf? then NegInf
    else if a.PosInf? then b
    else if b.PosInf? then a
    else Finite(if a.v <= b.v then a.v else b.v)
  }

  function JsMax(a: JsNumber, b: JsNumber): (r: JsNumber)
    ensures a.NaN? || b.NaN? <==> r.NaN?
    ensures !r.NaN? ==> (r == a || r == b) && AtMost(a, r) && AtMost(b, r)
    ensures a.Finite? && b.Finite? ==> r == Finite(if a.v >= b.v then a.v else b.v)
    ensures !r.NaN? && (a.PosInf? || b.PosInf?) ==> r.PosInf?
    ensures a.NegInf? && !b.NaN? ==> r == b
    ensures b.NegInf? && !a.NaN? ==> r == a
  {
    if a.NaN? || b.NaN? then NaN
    else if a.PosInf? || b.PosInf? then PosInf
    else if a.NegInf? then b
    else if b.NegInf? then a
    else Finite(if a.v >= b.v then a.v else b.v)
  }

  /** `Math.max(1, Math.min(5000, Number(lines) || 1000))`, given `Number(lines)`. */
  function LinesToRead(lines: JsNumber): (n: nat)
    ensures 1 <= n <= 5000
    ensures !lines.Truthy() ==> n == 1000
    ensures lines.Finite? && 1 <= lines.v <= 5000 ==> n == lines.v
    ensures lines.Finite? && lines.v > 5000 ==> n == 5000
    ensures lines.Finite? && lines.v < 0 ==> n == 1
    ensures lines.PosInf? ==> n == 5000
    ensures lines.NegInf? ==> n == 1
  {
    var x := if lines.Truthy() then lines else Finite(1000);
    var r := JsMax(Finite(1), JsMin(Finite(5000), x));
    r.v
  }

  /* --------------------------------- messages -------------------------------- */

  /** A JSON-RPC id as it appears in a request; `null` is an id that is present. */
  datatype Id = NumId(n: int) | StrId(s: string) | NullId

  /** The `arguments` object of a tool call. `keys` is `None` when it is not an array,
      `lines` is what `Number(lines)` gives. */
  datatype ToolArgs = ToolArgs(
    name: Option<string>, sessionId: Option<string>, text: Option<string>,
    keys: Option<seq<string>>, lines: JsNumber)

  /** The `args = {}` default: every field undefined. */
  const NoArgs := ToolArgs(None, None, None, None, NaN)

  datatype CallParams = CallParams(name: Option<string>, arguments: Option<ToolArgs>)

  /** A parsed message; a missing `method` (here `rpcMethod`), `id` or `params` is `None`. */
  datatype Message = Message(rpcMethod: Option<string>, id: Option<Id>, params: Option<CallParams>)

  datatype ToolResult = Opened(sessionId: string, name: string) | Acknowledged | Output(output: string)

  datatype ToolDef = ToolDef(name: string, required: seq<string>)

  const ToolDefs := [
    ToolDef("shell.open", []),
    ToolDef("shell.send", ["sessionId"]),
    ToolDef("shell.read", ["sessionId"]),
    ToolDef("shell.close", ["sessionId"])
  ]

  const ProtocolVersion := "2024-11-05"
  const ServerName := "mcp-shell-session"
  const ServerVersion := "0.1.0"
  const ToolErrorCode := -32000

  datatype ReplyBody =
    | Initialized(protocolVersion: string, serverName: string, serverVersion: string)
    | ToolList(tools: seq<ToolDef>)
    | CallResult(result: ToolResult)
    | CallError(code: int, message: string)
    | NullResult

  /** A message `send` writes; `id: None` is a reply whose `id` was undefined and so is omitted. */
  datatype Reply = Reply(id: Option<Id>, body: ReplyBody)

  /** What `exec` reports for one command line. */
  datatype Outcome = Done(stdout: string) | Failed(message: string)

  /** The container: what running `CommandLine(wrap, c)` as the `n`-th command of the run reports. */
  type Shell = (nat, Command) -> Outcome

  /** `!sessionId`: an absent or empty session id. */
  predicate Falsy(s: Option<string>) {
    s.None? || s.value == ""
  }

  /** `args.name && String(args.name).trim() ? args.name : "sess_" + rid()` */
  function SessionName(name: Option<string>, rid: string): (r: string)
    ensures name.Some? && !IsBlank(name.value) ==> r == name.value
    ensures (name.None? || IsBlank(name.value)) ==> r == "sess_" + rid
    ensures !IsBlank(r)
  {
    if name.Some? && name.value != "" && Trim(name.value) != "" then
      TrimEmptyIffBlank(name.value);
      name.value
    else
      assert name.Some? ==> (name.value == "" || Trim(name.value) == "") ==> IsBlank(name.value) by {
        if name.Some? { TrimEmptyIffBlank(name.value); }
      }
      assert ("sess_" + rid)[0] == 's';
      "sess_" + rid
  }

  /** `e?.message || String(e)` for a thrown `Error`: its message, or "Error" when that is empty. */
  function ErrorText(message: string): (t: string)
    ensures t != ""
    ensures message != "" ==> t == message
  {
    Or(message, "Error")
  }

  /** `handleMessage` writes exactly one reply, except to a message of another method without an id. */
  predicate Answered(msg: Message) {
    msg.rpcMethod == Some("initialize") || msg.rpcMethod == Some("tools/list") ||
    msg.rpcMethod == Some("tools/call") || msg.id.Some?
  }

  function AnsweredCount(msgs: seq<Message>): (n: nat)
    ensures n <= |msgs|
    ensures n == |set i | 0 <= i < |msgs| && Answered(msgs[i])|
  {
    if msgs == [] then 0
    else
      var init := msgs[..|msgs| - 1];
      var k := |msgs| - 1;
      var before := set i | 0 <= i < |init| && Answered(init[i]);
      var extra: set<int> := if Answered(msgs[k]) then {k} else {};
      assert (set i | 0 <= i < |msgs| && Answered(msgs[i])) == before + extra;
      assert k !in before;
      AnsweredCount(init) + (if Answered(msgs[k]) then 1 else 0)
  }

  /** Every message that carries an id is answered once: requests never go unanswered. */
  lemma {:induction false} RequestsAnswered(msgs: seq<Message>)
    requires forall i :: 0 <= i < |msgs| ==> msgs[i].id.Some?
    ensures AnsweredCount(msgs) == |msgs|
  {
    if msgs != [] {
      RequestsAnswered(msgs[..|msgs| - 1]);
    }
  }

  /* ---------------------------------- server --------------------------------- */

  class Session {
    const wrap: string
    /** `ensuredTmux` */
    var ensuredTmux: bool
    /** Every command run in the container, in order; `exec` saw `CommandLine(wrap, c)` for each. */
    var issued: seq<Command>
    /** Every message written to stdout, in order. */
    var sent: seq<Reply>

    constructor (env: Env)
      ensures wrap == WrapFrom(env)
      ensures !ensuredTmux && issued == [] && sent == []
    {
      wrap := WrapFrom(env);
      ensuredTmux := false;
      issued := [];
      sent := [];
    }

    /** `runInContainer(cmd)` */
    method RunInContainer(c: Command, shell: Shell) returns (o: Outcome)
      modifies this`issued
      ensures issued == old(issued) + [c]
      ensures o == shell(|old(issued)|, c)
    {
      o := shell(|issued|, c);
      issued := issued + [c];
    }

    /** `ensureTmux()`: probe for tmux once, installing it when the probe fails. The flag is
        set only when the probe or the install succeeded; a failed install propagates. */
    method EnsureTmux(shell: Shell) returns (err: Option<string>)
      modifies this`issued, this`ensuredTmux
      ensures ensuredTmux <==> err.None?
      ensures issued == old(issued) + TmuxSetup(old(ensuredTmux), shell, |old(issued)|)
      ensures err == SetupError(old(ensuredTmux), shell, |old(issued)|)
    {
      if ensuredTmux {
        return None;
      }
      var o := RunInContainer(ProbeTmux, shell);
      if o.Failed? {
        var o2 := RunInContainer(InstallTmux, shell);
        if o2.Failed? {
          return Some(o2.message);
        }
      }
      ensuredTmux := true;
      err := None;
    }

    /** `t_open(args)` */
    method Open(args: ToolArgs, shell: Shell, rid: string) returns (r: Result<ToolResult, string>)
      modifies this`issued, this`ensuredTmux
      ensures issued == old(issued) + OpenRun(args, old(ensuredTmux), shell, |old(issued)|, rid).commands
      ensures r == OpenRun(args, old(ensuredTmux), shell, |old(issued)|, rid).result
      ensures ensuredTmux == SetupError(old(ensuredTmux), shell, |old(issued)|).None?
      ensures r.Ok? ==> ensuredTmux
    {
      ghost var n := |issued|;
      ghost var setup := TmuxSetup(ensuredTmux, shell, n);
      ghost var spec := OpenRun(args, ensuredTmux, shell, n, rid);
      var err := EnsureTmux(shell);
      if err.Some? {
        assert spec == Ran(setup, Err(err.value));
        r := Err(err.value);
      } else {
        var name := SessionName(args.name, rid);
        assert spec.commands == setup + [OpenSession(name)];
        var o := RunInContainer(OpenSession(name), shell);
        assert o == shell(n + |setup|, OpenSession(name));
        r := if o.Failed? then Err(o.message) else Ok(Opened(name, name));
        assert r == spec.result;
      }
    }

    /** `t_send(args)`: the text as a literal, then the key chords; a failure stops the rest. */
    method SendKeys(args: ToolArgs, shell: Shell) returns (r: Result<ToolResult, string>)
      modifies this`issued
      ensures issued == old(issued) + SendRun(args, shell, |old(issued)|).commands
      ensures r == SendRun(args, shell, |old(issued)|).result
    {
      if Falsy(args.sessionId) {
        return Err("sessionId required");
      }
      var sid := args.sessionId.value;
      ghost var plan := SendCommands(args);
      ghost var n := |issued|;
      if args.text.Some? && args.text.value != "" {
        var o := RunInContainer(SendText(sid, args.text.value), shell);
        assert plan[0] == SendText(sid, args.text.value);
        if o.Failed? {
          return Err(o.message);
        }
      }
      if args.keys.Some? && args.keys.value != [] {
        var o := RunInContainer(SendChords(sid, args.keys.value), shell);
        if o.Failed? {
          if |plan| == 2 {
            assert FirstFailure(plan[1..], shell, n + 1) == Some(o.message);
          }
          assert FirstFailure(plan, shell, n) == Some(o.message);
          return Err(o.message);
        }
      }
      r := Ok(Acknowledged);
    }

    /** `t_read(args)` */
    method ReadPane(args: ToolArgs, shell: Shell) returns (r: Result<ToolResult, string>)
      modifies this`issued
      ensures issued == old(issued) + ReadRun(args, shell, |old(issued)|).commands
      ensures r == ReadRun(args, shell, |old(issued)|).result
    {
      if Falsy(args.sessionId) {
        return Err("sessionId required");
      }
      var n := LinesToRead(args.lines);
      var o := RunInContainer(CapturePane(args.sessionId.value, n), shell);
      match o
      case Done(out) => r := Ok(Output(out));
      case Failed(m) => r := Err(m);
    }

    /** `t_close(args)` */
    method Close(args: ToolArgs, shell: Shell) returns (r: Result<ToolResult, string>)
      modifies this`issued
      ensures issued == old(issued) + CloseRun(args, shell, |old(issued)|).commands
      ensures r == CloseRun(args, shell, |old(issued)|).result
    {
      if Falsy(args.sessionId) {
        return Err("sessionId required");
      }
      var o := RunInContainer(KillSession(args.sessionId.value), shell);
      if o.Failed? {
        return Err(o.message);
      }
      r := Ok(Acknowledged);
    }

    /** The `switch (name)` of `tools/call`; `arguments` left out defaults to `{}`. */
    method CallTool(name: Option<string>, args: Option<ToolArgs>, shell: Shell, rid: string)
      returns (r: Result<ToolResult, string>)
      modifies this`issued, this`ensuredTmux
      ensures issued == old(issued) + ToolRun(name, args.GetOr(NoArgs), old(ensuredTmux), shell, |old(issued)|, rid).commands
      ensures r == ToolRun(name, args.GetOr(NoArgs), old(ensuredTmux), shell, |old(issued)|, rid).result
      ensures ensuredTmux ==
        if name == Some("shell.open") then SetupError(old(ensuredTmux), shell, |old(issued)|).None? else old(ensuredTmux)
    {
      var a := args.GetOr(NoArgs);
      if name == Some("shell.open") {
        r := Open(a, shell, rid);
      } else if name == Some("shell.send") {
        r := SendKeys(a, shell);
      } else if name == Some("shell.read") {
        r := ReadPane(a, shell);
      } else if name == Some("shell.close") {
        r := Close(a, shell);
      } else {
        return Err("Unknown tool: " + name.GetOr("undefined"));
      }
      if r.Err? {
        r := Err(ErrorText(r.error));
      }
    }

    /** `handleMessage(msg)`, modelled as finishing before the next message starts. */
    method HandleMessage(msg: Message, shell: Shell, rid: string)
      modifies this
      ensures |sent| == |old(sent)| + (if Answered(msg) then 1 else 0)
      ensures sent[..|old(sent)|] == old(sent)
      ensures Answered(msg) ==> sent[|sent| - 1].id == msg.id
      ensures msg.rpcMethod == Some("initialize") ==>
        sent[|sent| - 1].body == Initialized(ProtocolVersion, ServerName, ServerVersion)
      ensures msg.rpcMethod == Some("tools/list") ==> sent[|sent| - 1].body == ToolList(ToolDefs)
      ensures msg.rpcMethod == Some("tools/call") && !(CalledTool(msg).Some? && CalledTool(msg).value in ToolNames()) ==>
        sent[|sent| - 1].body == CallError(ToolErrorCode, "Unknown tool: " + CalledTool(msg).GetOr("undefined"))
      ensures msg.rpcMethod == Some("tools/call") ==>
        var t := ToolRun(CalledTool(msg), CalledArgs(msg), old(ensuredTmux), shell, |old(issued)|, rid);
        issued == old(issued) + t.commands && sent[|sent| - 1].body == CallReply(t.result)
      ensures (msg.id.Some? && msg.rpcMethod != Some("initialize") && msg.rpcMethod != Some("tools/list") &&
               msg.rpcMethod != Some("tools/call")) ==> sent[|sent| - 1].body == NullResult
      ensures msg.rpcMethod != Some("tools/call") ==> issued == old(issued) && ensuredTmux == old(ensuredTmux)
      ensures msg.rpcMethod == Some("tools/call") ==>
        ensuredTmux == if CalledTool(msg) == Some("shell.open")
                       then SetupError(old(ensuredTmux), shell, |old(issued)|).None? else old(ensuredTmux)
    {
      if msg.rpcMethod == Some("initialize") {
        sent := sent + [Reply(msg.id, Initialized(ProtocolVersion, ServerName, ServerVersion))];
        return;
      }
      if msg.rpcMethod == Some("tools/list") {
        sent := sent + [Reply(msg.id, ToolList(ToolDefs))];
        return;
      }
      if msg.rpcMethod == Some("tools/call") {
        var params := msg.params.GetOr(CallParams(None, None));
        assert params.name == CalledTool(msg) && params.arguments.GetOr(NoArgs) == CalledArgs(msg);
        var r := CallTool(params.name, params.arguments, shell, rid);
        sent := sent + [Reply(msg.id, CallReply(r))];
        return;
      }
      if msg.id.Some? {
        assert Answered(msg);
        sent := sent + [Reply(msg.id, NullResult)];
      } else {
        assert !Answered(msg);
      }
    }

    /** The messages one stdin chunk yields, handled in the order they were read;
        the `i`-th of them may draw the random id `rid(i)`. */
    method HandleAll(msgs: seq<Message>, shell: Shell, rid: nat -> string)
      modifies this
      ensures |sent| == |old(sent)| + AnsweredCount(msgs)
      ensures sent[..|old(sent)|] == old(sent)
    {
      for i := 0 to |msgs|
        invariant |sent| == |old(sent)| + AnsweredCount(msgs[..i])
        invariant sent[..|old(sent)|] == old(sent)
      {
        ghost var before := sent;
        HandleMessage(msgs[i], shell, rid(i));
        assert sent[..|old(sent)|] == before[..|old(sent)|];
        assert msgs[..i + 1][..i] == msgs[..i];
      }
      assert msgs[..|msgs|] == msgs;
    }

    /** `process.stdin.on("data")` followed by `handleMessage` for each message it parses. */
    method OnStdin(reader: StdinReader, chunk: seq<byte>, parse: seq<byte> -> Option<Message>,
                      shell: Shell, rid: nat -> string)
      modifies this, reader
      ensures reader.buf == Drain(old(reader.buf) + chunk).rest
      ensures |sent| == |old(sent)| + AnsweredCount(ParseAll(Drain(old(reader.buf) + chunk).bodies, parse))
      ensures sent[..|old(sent)|] == old(sent)
    {
      var msgs := reader.OnData(chunk, parse);
      HandleAll(msgs, shell, rid);
    }
  }

  /** The commands one tool call runs in the container, in order, and what it answers. */
  datatype Ran = Ran(commands: seq<Command>, result: Result<ToolResult, string>)

  /** `t_open(args)` from position `n`: set tmux up, then create the session unless it exists;
      it answers the session's name as both `sessionId` and `name`. */
  function OpenRun(a: ToolArgs, ensured: bool, shell: Shell, n: nat, rid: string): Ran {
    var setup := TmuxSetup(ensured, shell, n);
    match SetupError(ensured, shell, n)
    case Some(e) => Ran(setup, Err(e))
    case None =>
      var name := SessionName(a.name, rid);
      var c := OpenSession(name);
      Ran(setup + [c], match shell(n + |setup|, c)
                       case Done(_) => Ok(Opened(name, name))
                       case Failed(m) => Err(m))
  }

  /** `t_send(args)`: the text as a literal, then the key chords, stopping at the first failure. */
  function SendRun(a: ToolArgs, shell: Shell, n: nat): Ran {
    if Falsy(a.sessionId) then Ran([], Err("sessionId required"))
    else
      Ran(RunUntilFailure(SendCommands(a), shell, n),
          match FirstFailure(SendCommands(a), shell, n)
          case None => Ok(Acknowledged)
          case Some(m) => Err(m))
  }

  /** `t_read(args)`: capture the clamped number of lines and answer the pane's text. */
  function ReadRun(a: ToolArgs, shell: Shell, n: nat): Ran {
    if Falsy(a.sessionId) then Ran([], Err("sessionId required"))
    else
      var c := CapturePane(a.sessionId.value, LinesToRead(a.lines));
      Ran([c], match shell(n, c)
               case Done(out) => Ok(Output(out))
               case Failed(m) => Err(m))
  }

  /** `t_close(args)`: kill the session. */
  function CloseRun(a: ToolArgs, shell: Shell, n: nat): Ran {
    if Falsy(a.sessionId) then Ran([], Err("sessionId required"))
    else
      var c := KillSession(a.sessionId.value);
      Ran([c], match shell(n, c)
               case Done(_) => Ok(Acknowledged)
               case Failed(m) => Err(m))
  }

  /** The `switch (name)` of `tools/call`: the named tool runs, any other name throws
      `Unknown tool`, and a thrown error answers `e.message || String(e)`. */
  function ToolRun(name: Option<string>, a: ToolArgs, ensured: bool, shell: Shell, n: nat, rid: string): (t: Ran)
    ensures name == Some("shell.open") ==> t.commands == OpenRun(a, ensured, shell, n, rid).commands
    ensures name == Some("shell.send") ==> t.commands == SendRun(a, shell, n).commands
    ensures name == Some("shell.read") ==> t.commands == ReadRun(a, shell, n).commands
    ensures name == Some("shell.close") ==> t.commands == CloseRun(a, shell, n).commands
    ensures !(name.Some? && name.value in ToolNames()) ==> t == Ran([], Err("Unknown tool: " + name.GetOr("undefined")))
    ensures name in {Some("shell.send"), Some("shell.read"), Some("shell.close")} && Falsy(a.sessionId) ==>
      t == Ran([], Err("sessionId required"))
    ensures t.result.Err? ==> t.result.error != ""
    ensures t.result.Ok? ==> name.Some? && name.value in ToolNames()
  {
    var raw :=
      if name == Some("shell.open") then OpenRun(a, ensured, shell, n, rid)
      else if name == Some("shell.send") then SendRun(a, shell, n)
      else if name == Some("shell.read") then ReadRun(a, shell, n)
      else if name == Some("shell.close") then CloseRun(a, shell, n)
      else Ran([], Err("Unknown tool: " + name.GetOr("undefined")));
    Ran(raw.commands, match raw.result
                      case Ok(v) => Ok(v)
                      case Err(e) => Err(ErrorText(e)))
  }

  /** The reply to `tools/call`: the result as text content, or a thrown error as code -32000. */
  function CallReply(r: Result<ToolResult, string>): (b: ReplyBody)
    ensures r.Ok? <==> b.CallResult?
    ensures r.Ok? ==> b == CallResult(r.value)
    ensures r.Err? ==> b == CallError(ToolErrorCode, r.error)
  {
    match r
    case Ok(res) => CallResult(res)
    case Err(e) => CallError(ToolErrorCode, e)
  }

  /** The commands `ensureTmux` runs from position `n`: none once the flag is set, else the
      probe, followed by the install only when the probe fails. */
  function TmuxSetup(ensured: bool, shell: Shell, n: nat): (cs: seq<Command>)
    ensures |cs| <= 2
    ensures ensured <==> cs == []
    ensures cs != [] ==> cs[0] == ProbeTmux
    ensures !ensured ==> (cs == [ProbeTmux] <==> shell(n, ProbeTmux).Done?)
    ensures |cs| == 2 ==> cs == [ProbeTmux, InstallTmux] && shell(n, ProbeTmux).Failed?
  {
    if ensured then []
    else if shell(n, ProbeTmux).Done? then [ProbeTmux]
    else [ProbeTmux, InstallTmux]
  }

  /** What `ensureTmux` throws: only a failed install, after a failed probe. */
  function SetupError(ensured: bool, shell: Shell, n: nat): (e: Option<string>)
    ensures e.Some? ==> TmuxSetup(ensured, shell, n) == [ProbeTmux, InstallTmux]
    ensures e.Some? <==> !ensured && shell(n, ProbeTmux).Failed? && shell(n + 1, InstallTmux).Failed?
  {
    if ensured || shell(n, ProbeTmux).Done? then None
    else match shell(n + 1, InstallTmux)
      case Done(_) => None
      case Failed(m) => Some(m)
  }

  /** The commands `t_send` means to run, in order: the text, then the key chords. */
  function SendCommands(args: ToolArgs): (cs: seq<Command>)
    requires !Falsy(args.sessionId)
    ensures |cs| <= 2
    ensures (args.text.Some? && args.text.value != "") <==> SendText(args.sessionId.value, args.text.GetOr("")) in cs
    ensures (args.keys.Some? && args.keys.value != []) <==> SendChords(args.sessionId.value, args.keys.GetOr([])) in cs
  {
    var sid := args.sessionId.value;
    (if args.text.Some? && args.text.value != "" then [SendText(sid, args.text.value)] else []) +
    (if args.keys.Some? && args.keys.value != [] then [SendChords(sid, args.keys.value)] else [])
  }

  /** Running `cs` from position `n`, stopping after the first command that fails. */
  function RunUntilFailure(cs: seq<Command>, shell: Shell, n: nat): (ran: seq<Command>)
    ensures |ran| <= |cs| && ran == cs[..|ran|]
    ensures forall i :: 0 <= i < |ran| - 1 ==> shell(n + i, ran[i]).Done?
    ensures |ran| < |cs| ==> |ran| > 0 && shell(n + |ran| - 1, ran[|ran| - 1]).Failed?
    decreases |cs|
  {
    if cs == [] then []
    else if shell(n, cs[0]).Failed? then [cs[0]]
    else
      var tail := RunUntilFailure(cs[1..], shell, n + 1);
      assert forall i :: 1 <= i < |tail| + 1 ==> ([cs[0]] + tail)[i] == tail[i - 1];
      [cs[0]] + tail
  }

  /** The message of the first command in `cs` that fails, if one does. */
  function FirstFailure(cs: seq<Command>, shell: Shell, n: nat): (e: Option<string>)
    ensures e.None? <==> forall i :: 0 <= i < |cs| ==> shell(n + i, cs[i]).Done?
    decreases |cs|
  {
    if cs == [] then None
    else if shell(n, cs[0]).Failed? then Some(shell(n, cs[0]).message)
    else
      var e := FirstFailure(cs[1..], shell, n + 1);
      assert forall i :: 1 <= i < |cs| ==> cs[1..][i - 1] == cs[i];
      e
  }

  /** `(msg.params || {}).arguments`, `{}` when absent. */
  function CalledArgs(msg: Message): ToolArgs {
    match msg.params
    case None => NoArgs
    case Some(p) => p.arguments.GetOr(NoArgs)
  }

  /** `(msg.params || {}).name` */
  function CalledTool(msg: Message): (name: Option<string>)
    ensures msg.params.None? ==> name.None?
    ensures msg.params.Some? ==> name == msg.params.value.name
  {
    match msg.params
    case None => None
    case Some(p) => p.name
  }

  function ToolNames(): set<string> {
    {"shell.open", "shell.send", "shell.read", "shell.close"}
  }

}
