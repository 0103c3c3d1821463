/** The PTY bridge (mcp/pty-server.mjs): one shell child process attached to a
    pseudo-terminal, its output fanned out to every open WebSocket client, and
    the HTTP endpoints `/input` (write to the shell) and `/write` (display-only
    broadcast). Every event handler is modelled as one atomic method of `Bridge`;
    what the handlers do to the outside world (spawn, write, resize, send, close)
    is appended to `trace`. */
module PtyServer {
  import opened JsText
  import opened Utf8

  const DefaultCols: int := 80
  const DefaultRows: int := 24
  const NormalClosure: int := 1000
  const ExitReason: string := "shell-exit"
  const OpenBrace: byte := 123

  const DefaultBin: string := "container"
  const DefaultPrimaryArgs: string := "exec --interactive --tty coderunner bash -l"
  const DefaultFallbackArgs: string := "exec --tty coderunner bash -l"

  /* ------------------------------- launch config ------------------------------ */

  /** The command and the two argument lists, read once from the environment. */
  datatype Config = Config(bin: string, primaryArgs: seq<string>, fallbackArgs: seq<string>)

  function ConfigFrom(env: Env): (c: Config)
    ensures c.bin != ""
    ensures EnvGet(env, "CONTAINER_BIN") != "" ==> c.bin == env["CONTAINER_BIN"]
    ensures EnvGet(env, "CONTAINER_BIN") == "" ==> c.bin == DefaultBin
    ensures EnvGet(env, "PTY_CONTAINER_ARGS") != "" ==> c.primaryArgs == Words(env["PTY_CONTAINER_ARGS"])
    ensures EnvGet(env, "PTY_CONTAINER_ARGS") == "" ==> c.primaryArgs == Words(DefaultPrimaryArgs)
    ensures EnvGet(env, "PTY_CONTAINER_ARGS_FALLBACK") != "" ==>
      c.fallbackArgs == Words(env["PTY_CONTAINER_ARGS_FALLBACK"])
    ensures EnvGet(env, "PTY_CONTAINER_ARGS_FALLBACK") == "" ==> c.fallbackArgs == Words(DefaultFallbackArgs)
    ensures forall i :: 0 <= i < |c.primaryArgs| ==> IsWord(c.primaryArgs[i])
    ensures forall i :: 0 <= i < |c.fallbackArgs| ==> IsWord(c.fallbackArgs[i])
  {
    var primary := Or(EnvGet(env, "PTY_CONTAINER_ARGS"), DefaultPrimaryArgs);
    var fallback := Or(EnvGet(env, "PTY_CONTAINER_ARGS_FALLBACK"), DefaultFallbackArgs);
    Config(Or(EnvGet(env, "CONTAINER_BIN"), DefaultBin), Words(primary), Words(fallback))
  }

  /** Without overrides the primary launch is `container exec --interactive --tty coderunner bash -l`
      and the fallback drops `--interactive`. */
  lemma DefaultConfig()
    ensures ConfigFrom(map[]) == Config("container",
      ["exec", "--interactive", "--tty", "coderunner", "bash", "-l"],
      ["exec", "--tty", "coderunner", "bash", "-l"])
  {
    DefaultPrimaryWords();
    DefaultFallbackWords();
  }

  lemma DefaultPrimaryWords()
    ensures Words(DefaultPrimaryArgs) == ["exec", "--interactive", "--tty", "coderunner", "bash", "-l"]
  {
    var ws := ["exec", "--interactive", "--tty", "coderunner", "bash", "-l"];
    PrimaryJoin(ws);
    WordsOfJoin(ws);
  }

  /** The primary default is the six words joined by spaces. */
  lemma PrimaryJoin(ws: seq<string>)
    requires ws == ["exec", "--interactive", "--tty", "coderunner", "bash", "-l"]
    ensures JoinSpaces(ws) == DefaultPrimaryArgs
  {
    var head := ["exec", "--interactive"];
    var tail := ["--tty", "coderunner", "bash", "-l"];
    TailJoinLiteral();
    HeadJoinLiteral();
    JoinAppend(head, tail);
    assert ws == head + tail;
    PrimaryArgsSplit();
  }

  lemma HeadJoinLiteral()
    ensures JoinSpaces(["exec", "--interactive"]) == "exec --interactive"
  {
  }

  lemma PrimaryArgsSplit()
    ensures "exec --interactive" + " " + "--tty coderunner bash -l" == DefaultPrimaryArgs
  {
  }

  lemma DefaultFallbackWords()
    ensures Words(DefaultFallbackArgs) == ["exec", "--tty", "coderunner", "bash", "-l"]
  {
    var f := ["exec", "--tty", "coderunner", "bash", "-l"];
    FallbackJoinLiteral();
    WordsOfJoin(f);
  }

  lemma FallbackJoinLiteral()
    ensures JoinSpaces(["exec", "--tty", "coderunner", "bash", "-l"]) == "exec --tty coderunner bash -l"
  {
    var ws := ["exec", "--tty", "coderunner", "bash", "-l"];
    TailJoinLiteral();
    assert ws[1..] == ["--tty", "coderunner", "bash", "-l"];
    var tail := "--tty coderunner bash -l";
    assert "exec" + " " + tail == "exec --tty coderunner bash -l";
  }

  /** The words both default argument lists end with. */
  lemma TailJoinLiteral()
    ensures JoinSpaces(["--tty", "coderunner", "bash", "-l"]) == "--tty coderunner bash -l"
  {
  }

  /* ------------------------------- state and effects -------------------------- */

  datatype Label = Primary | Fallback

  /** A spawned child: its spawn number, which argument list launched it, and its size. */
  datatype Pty = Pty(id: nat, launch: Label, cols: int, rows: int)

  type ClientId = nat

  /** The `readyState` a WebSocket reports. */
  datatype ReadyState = Connecting | Open | Closing | Closed

  datatype Effect =
    | Spawned(pty: nat, launch: Label, bin: string, args: seq<string>, cols: int, rows: int)
    | Wrote(pty: nat, data: string)
    | Resized(pty: nat, cols: int, rows: int)
    | Sent(client: ClientId, bytes: seq<byte>)
    | ClosedWith(client: ClientId, code: int, reason: string)

  predicate Distinct(cs: seq<ClientId>) {
    forall i, j :: 0 <= i < j < |cs| ==> cs[i] != cs[j]
  }

  predicate IsOpen(st: map<ClientId, ReadyState>, c: ClientId) {
    c in st && st[c] == Open
  }

  /** `clients.delete(c)` on an insertion-ordered set. */
  function Without(cs: seq<ClientId>, c: ClientId): (r: seq<ClientId>)
    ensures forall x :: x in r <==> x in cs && x != c
    ensures Distinct(cs) ==> Distinct(r)
    ensures c !in cs ==> r == cs
  {
    if cs == [] then []
    else if cs[0] == c then Without(cs[1..], c)
    else
      var r := [cs[0]] + Without(cs[1..], c);
      assert Distinct(cs) ==> cs[0] !in cs[1..] && Distinct(cs[1..]);
      r
  }

  /** Deleting a member of a set removes its one entry and keeps the others in order. */
  lemma WithoutRemovesEntry(cs: seq<ClientId>, k: nat)
    requires Distinct(cs) && k < |cs|
    ensures Without(cs, cs[k]) == cs[..k] + cs[k + 1..]
  {
    forall j | 0 <= j < |cs| && j != k ensures cs[j] != cs[k] {
      if j < k { assert cs[j] != cs[k]; } else { assert cs[k] != cs[j]; }
    }
    WithoutSoleEntry(cs, k);
  }

  lemma {:induction false} WithoutSoleEntry(cs: seq<ClientId>, k: nat)
    requires k < |cs| && forall j :: 0 <= j < |cs| && j != k ==> cs[j] != cs[k]
    ensures Without(cs, cs[k]) == cs[..k] + cs[k + 1..]
  {
    var c := cs[k];
    if k == 0 {
      assert forall i :: 0 <= i < |cs| - 1 ==> cs[1..][i] == cs[i + 1];
      assert c !in cs[1..];
    } else {
      assert cs[0] != c;
      forall j | 0 <= j < |cs| - 1 && j != k - 1 ensures cs[1..][j] != cs[1..][k - 1] {
        assert cs[1..][j] == cs[j + 1];
      }
      WithoutSoleEntry(cs[1..], k - 1);
      assert cs[..k] == [cs[0]] + cs[1..][..k - 1];
      assert cs[k + 1..] == cs[1..][k..];
    }
  }

  /** The sends one `for (const ws of clients) if (ws.readyState === ws.OPEN) ws.send(buf)` performs. */
  function Fanout(cs: seq<ClientId>, st: map<ClientId, ReadyState>, b: seq<byte>): (r: seq<Effect>)
    ensures forall e :: e in r ==> e.Sent? && e.bytes == b && e.client in cs && IsOpen(st, e.client)
    ensures forall c :: c in cs && IsOpen(st, c) ==> Sent(c, b) in r
  {
    if cs == [] then []
    else
      var last := cs[|cs| - 1];
      assert forall x :: x in cs[..|cs| - 1] ==> x in cs;
      assert forall x :: x in cs ==> x in cs[..|cs| - 1] || x == last;
      Fanout(cs[..|cs| - 1], st, b) + (if IsOpen(st, last) then [Sent(last, b)] else [])
  }

  /** The closes the exit handler performs, one per client, in set order. */
  function CloseAll(cs: seq<ClientId>): (r: seq<Effect>)
    ensures |r| == |cs|
    ensures forall i :: 0 <= i < |cs| ==> r[i] == ClosedWith(cs[i], NormalClosure, ExitReason)
  {
    seq(|cs|, i requires 0 <= i < |cs| => ClosedWith(cs[i], NormalClosure, ExitReason))
  }

  /** The chunks client `c` has been sent, in order. */
  function Received(t: seq<Effect>, c: ClientId): seq<seq<byte>> {
    if t == [] then []
    else
      var e := t[|t| - 1];
      Received(t[..|t| - 1], c) + (if e.Sent? && e.client == c then [e.bytes] else [])
  }

  lemma {:induction false} ReceivedAppend(t: seq<Effect>, u: seq<Effect>, c: ClientId)
    ensures Received(t + u, c) == Received(t, c) + Received(u, c)
    decreases |u|
  {
    if u == [] {
      assert t + u == t;
    } else {
      assert (t + u)[..|t + u| - 1] == t + u[..|u| - 1];
      ReceivedAppend(t, u[..|u| - 1], c);
    }
  }

  /** One fan-out delivers the chunk once to each open client and nothing to anyone else. */
  lemma {:induction false} FanoutReceived(cs: seq<ClientId>, st: map<ClientId, ReadyState>, b: seq<byte>, c: ClientId)
    requires Distinct(cs)
    ensures Received(Fanout(cs, st, b), c) == if c in cs && IsOpen(st, c) then [b] else []
  {
    if cs != [] {
      var init := cs[..|cs| - 1];
      var last := cs[|cs| - 1];
      assert Distinct(init);
      assert last !in init;
      FanoutReceived(init, st, b, c);
      var tail: seq<Effect> := if IsOpen(st, last) then [Sent(last, b)] else [];
      ReceivedAppend(Fanout(init, st, b), tail, c);
      if tail != [] { assert tail[..0] == []; }
      assert c in cs <==> c in init || c == last;
    }
  }

  /** Production order is kept: after a fan-out, each open client's received stream is
      its earlier stream followed by the new chunk; every other stream is unchanged. */
  lemma FanoutKeepsOrder(t: seq<Effect>, cs: seq<ClientId>, st: map<ClientId, ReadyState>, b: seq<byte>, c: ClientId)
    requires Distinct(cs)
    ensures Received(t + Fanout(cs, st, b), c) ==
            Received(t, c) + (if c in cs && IsOpen(st, c) then [b] else [])
  {
    ReceivedAppend(t, Fanout(cs, st, b), c);
    FanoutReceived(cs, st, b, c);
  }

  /* ------------------------------ frame routing ------------------------------- */

  /** What `ws` hands the message handler: a string or a buffer, and the binary flag. */
  datatype Payload = Text(s: string) | Bytes(b: seq<byte>)
  datatype Frame = Frame(isBinary: bool, data: Payload)

  /** A `cols` or `rows` field as `msg.cols || 80` sees it: falsy, or truthy with the value `Number` gives it. */
  datatype Field = Falsy | Truthy(num: JsNumber)

  /** The parsed control envelope, by its `type` field. `InputEnvelope.data` is `None` when `data` is not a string. */
  datatype Envelope =
    | ResizeEnvelope(cols: Field, rows: Field)
    | InputEnvelope(data: Option<string>)
    | OtherValue

  /** `JSON.parse`: it throws, or yields a value. */
  datatype Parse = Throws | Parsed(value: Envelope)

  datatype Action = NoAction | ResizeTo(cols: int, rows: int) | Write(data: string)

  /** `Number(f || d)` */
  function Dimension(f: Field, d: int): (n: JsNumber)
    ensures f.Falsy? ==> n == Finite(d)
    ensures f.Truthy? ==> n == f.num
  {
    match f
    case Falsy => Finite(d)
    case Truthy(x) => x
  }

  function ResizeAction(cols: Field, rows: Field): (a: Action)
    ensures !a.Write?
    ensures a.ResizeTo? <==> Dimension(cols, DefaultCols).IsFinite() && Dimension(rows, DefaultRows).IsFinite()
  {
    var c := Dimension(cols, DefaultCols);
    var r := Dimension(rows, DefaultRows);
    if c.IsFinite() && r.IsFinite() then ResizeTo(c.v, r.v) else NoAction
  }

  /** What a parsed control value does; anything but a resize or a string input is written as `raw`. */
  function EnvelopeAction(e: Envelope, raw: string): Action {
    match e
    case ResizeEnvelope(c, r) => ResizeAction(c, r)
    case InputEnvelope(Some(d)) => Write(d)
    case _ => Write(raw)
  }

  /** `Buffer.isBuffer(data) ? data : Buffer.from(data)` */
  function FrameBytes(f: Frame): seq<byte> {
    match f.data
    case Bytes(b) => b
    case Text(s) => Encode(s)
  }

  predicate IsTextPath(f: Frame) {
    !f.isBinary && f.data.Text?
  }

  /** The message handler's decision for one frame, given `JSON.parse` and the UTF-8 decoder. */
  function Classify(f: Frame, parse: string -> Parse, decode: seq<byte> -> string): (a: Action)
    ensures a.Write? && IsTextPath(f) ==>
      a.data == f.data.s || parse(f.data.s) == Parsed(InputEnvelope(Some(a.data)))
    ensures a.Write? && !IsTextPath(f) ==>
      a.data == decode(FrameBytes(f)) || parse(decode(FrameBytes(f))) == Parsed(InputEnvelope(Some(a.data)))
    ensures a.ResizeTo? ==>
      var p := if IsTextPath(f) then parse(f.data.s) else parse(decode(FrameBytes(f)));
      p.Parsed? && p.value.ResizeEnvelope? && a == ResizeAction(p.value.cols, p.value.rows)
  {
    if IsTextPath(f) then
      var s := f.data.s;
      if StartsWith(s, "{") then
        match parse(s)
        case Throws => NoAction   // the outer catch swallows the SyntaxError
        case Parsed(e) => EnvelopeAction(e, s)
      else Write(s)
    else
      var buf := FrameBytes(f);
      if |buf| > 0 && buf[0] == OpenBrace then
        match parse(decode(buf))
        case Throws => Write(decode(buf))   // the inner catch falls through to the raw write
        case Parsed(e) => EnvelopeAction(e, decode(buf))
      else Write(decode(buf))
  }

  /** A text frame that starts with `{` but is not JSON writes nothing. */
  lemma TextParseFailureWritesNothing(s: string, parse: string -> Parse, decode: seq<byte> -> string)
    requires StartsWith(s, "{") && parse(s) == Throws
    ensures Classify(Frame(false, Text(s)), parse, decode) == NoAction
  {
  }

  /** A binary frame that starts with `{` but is not JSON is written raw. */
  lemma BinaryParseFailureWritesRaw(b: seq<byte>, parse: string -> Parse, decode: seq<byte> -> string)
    requires parse(decode(b)) == Throws
    ensures Classify(Frame(true, Bytes(b)), parse, decode) == Write(decode(b))
  {
  }

  /** A resize envelope never writes, and resizes to `Number(cols||80)` x `Number(rows||24)` exactly when both are finite. */
  lemma ResizeEnvelopeNeverWrites(f: Frame, c: Field, r: Field, parse: string -> Parse, decode: seq<byte> -> string)
    requires IsTextPath(f) ==> StartsWith(f.data.s, "{") && parse(f.data.s) == Parsed(ResizeEnvelope(c, r))
    requires !IsTextPath(f) ==> |FrameBytes(f)| > 0 && FrameBytes(f)[0] == OpenBrace &&
                                parse(decode(FrameBytes(f))) == Parsed(ResizeEnvelope(c, r))
    ensures !Classify(f, parse, decode).Write?
    ensures Classify(f, parse, decode) ==
      if Dimension(c, DefaultCols).IsFinite() && Dimension(r, DefaultRows).IsFinite()
      then ResizeTo(Dimension(c, DefaultCols).v, Dimension(r, DefaultRows).v) else NoAction
  {
  }

  /** An input envelope whose `data` is a string writes that string, on either path. */
  lemma InputEnvelopeWrites(f: Frame, d: string, parse: string -> Parse, decode: seq<byte> -> string)
    requires IsTextPath(f) ==> StartsWith(f.data.s, "{") && parse(f.data.s) == Parsed(InputEnvelope(Some(d)))
    requires !IsTextPath(f) ==> |FrameBytes(f)| > 0 && FrameBytes(f)[0] == OpenBrace &&
                                parse(decode(FrameBytes(f))) == Parsed(InputEnvelope(Some(d)))
    ensures Classify(f, parse, decode) == Write(d)
  {
  }

  /** Any other JSON value (no recognised `type`, or `input` without string `data`) is written
      as the raw text it was parsed from. */
  lemma OtherJsonWritesRaw(f: Frame, e: Envelope, parse: string -> Parse, decode: seq<byte> -> string)
    requires e == OtherValue || e == InputEnvelope(None)
    requires IsTextPath(f) ==> StartsWith(f.data.s, "{") && parse(f.data.s) == Parsed(e)
    requires !IsTextPath(f) ==> |FrameBytes(f)| > 0 && FrameBytes(f)[0] == OpenBrace &&
                                parse(decode(FrameBytes(f))) == Parsed(e)
    ensures Classify(f, parse, decode) == Write(if IsTextPath(f) then f.data.s else decode(FrameBytes(f)))
  {
  }

  /** A binary frame (or a buffer) whose first byte is not `{` is decoded and written without parsing. */
  lemma BinaryWithoutBraceWritesRaw(f: Frame, parse: string -> Parse, decode: seq<byte> -> string)
    requires !IsTextPath(f)
    requires |FrameBytes(f)| == 0 || FrameBytes(f)[0] != OpenBrace
    ensures Classify(f, parse, decode) == Write(decode(FrameBytes(f)))
  {
  }

  /** A text frame that does not start with `{` is written verbatim. */
  lemma PlainTextWritesRaw(s: string, parse: string -> Parse, decode: seq<byte> -> string)
    requires !StartsWith(s, "{")
    ensures Classify(Frame(false, Text(s)), parse, decode) == Write(s)
  {
  }

  /** For a JSON string, the text path and the binary path agree (given that decoding the
      UTF-8 encoding of `s` gives back `s`); they differ only when parsing throws. */
  lemma {:induction false} PathsAgreeOnJson(s: string, parse: string -> Parse, decode: seq<byte> -> string)
    requires decode(Encode(s)) == s
    requires parse(s).Parsed?
    ensures Classify(Frame(false, Text(s)), parse, decode) == Classify(Frame(true, Text(s)), parse, decode)
  {
    FirstByteBrace(s);
  }

  /* ---------------------------------- HTTP ------------------------------------ */

  /** What `readJson()` and `const { data } = ...` give: a thrown error's message, or `data` when it is a string. */
  datatype Body = Malformed(message: string) | Data(data: Option<string>)

  datatype Request = Request(verb: string, url: Option<string>, body: Body)

  datatype Reply = Accepted(bytes: nat) | Refused(error: string)

  datatype ResponseBody = PlainText(text: string) | InfoPage | Json(reply: Reply)

  datatype Response = Response(status: int, body: ResponseBody)

  /** `typeof data === "string" ? data : ""` */
  function TextOf(d: Option<string>): string {
    d.GetOr("")
  }

  /* --------------------------------- the bridge -------------------------------- */

  class Bridge {
    const config: Config
    var currentPty: Option<Pty>
    /** The WebSocket clients in `Set` insertion order. */
    var clients: seq<ClientId>
    /** The ready state each socket's transport reports. */
    var transport: map<ClientId, ReadyState>
    /** 250 ms fallback timers armed and not yet fired. */
    var timers: nat
    /** Spawn counter, naming each child. */
    var spawned: nat
    var trace: seq<Effect>
    /** The children that are running (the operating system's view). */
    ghost var Live: set<nat>

    /** At most one child runs, and it is the current one; clients form a set. */
    ghost predicate Valid()
      reads this
    {
      && Distinct(clients)
      && (forall c :: c in clients ==> c in transport)
      && Live == (if currentPty.Some? then {currentPty.value.id} else {})
      && (currentPty.Some? ==> currentPty.value.id < spawned)
    }

    constructor (cfg: Config)
      ensures Valid()
      ensures config == cfg
      ensures currentPty == None && clients == [] && transport == map[]
      ensures timers == 0 && spawned == 0 && trace == [] && Live == {}
    {
      config := cfg;
      currentPty := None;
      clients := [];
      transport := map[];
      timers := 0;
      spawned := 0;
      trace := [];
      Live := {};
    }

    /** `startPty(bin, args, label)`: spawn at 80x24 and make the child current. */
    method StartPty(launch: Label)
      requires Valid() && currentPty.None?
      modifies this
      ensures Valid()
      ensures currentPty == Some(Pty(old(spawned), launch, DefaultCols, DefaultRows))
      ensures spawned == old(spawned) + 1 && Live == {old(spawned)}
      ensures trace == old(trace) + [Spawned(old(spawned), launch, config.bin,
        if launch == Primary then config.primaryArgs else config.fallbackArgs, DefaultCols, DefaultRows)]
      ensures clients == old(clients) && transport == old(transport) && timers == old(timers)
    {
      var args := if launch == Primary then config.primaryArgs else config.fallbackArgs;
      trace := trace + [Spawned(spawned, launch, config.bin, args, DefaultCols, DefaultRows)];
      currentPty := Some(Pty(spawned, launch, DefaultCols, DefaultRows));
      Live := {spawned};
      spawned := spawned + 1;
    }

    /** `broadcast` and the `onData` loop: send `b` to every client whose transport is open. */
    method SendToOpenClients(b: seq<byte>)
      requires Valid()
      modifies this`trace
      ensures trace == old(trace) + Fanout(clients, transport, b)
    {
      var i := 0;
      while i < |clients|
        invariant 0 <= i <= |clients|
        invariant trace == old(trace) + Fanout(clients[..i], transport, b)
      {
        var c := clients[i];
        assert clients[..i + 1][..i] == clients[..i];
        if c in transport && transport[c] == Open {
          trace := trace + [Sent(c, b)];
        }
        i := i + 1;
      }
      assert clients[..|clients|] == clients;
    }

    /** `wss.on("connection")`: register the socket; spawn the primary child and arm the
        fallback timer only when no child is current. */
    method Connect(c: ClientId)
      requires Valid()
      modifies this
      ensures Valid()
      ensures c in clients && Open == transport[c]
      ensures clients == if c in old(clients) then old(clients) else old(clients) + [c]
      ensures transport == old(transport)[c := Open]
      ensures old(currentPty).None? ==>
        && currentPty == Some(Pty(old(spawned), Primary, DefaultCols, DefaultRows))
        && trace == old(trace) + [Spawned(old(spawned), Primary, config.bin, config.primaryArgs, DefaultCols, DefaultRows)]
        && timers == old(timers) + 1 && spawned == old(spawned) + 1
    ensures old(currentPty).Some? ==>
        currentPty == old(currentPty) && trace == old(trace) && timers == old(timers) && spawned == old(spawned)
    {
      if c !in clients {
        clients := clients + [c];
      }
      transport := transport[c := Open];
      if currentPty.None? {
        StartPty(Primary);
        timers := timers + 1;
      }
    }

    /** The 250 ms timer: spawn the fallback only if no child is current at that moment. */
    method FallbackTimerFires()
      requires Valid() && timers > 0
      modifies this
      ensures Valid()
      ensures timers == old(timers) - 1
      ensures clients == old(clients) && transport == old(transport)
      ensures old(currentPty).None? ==>
        && currentPty == Some(Pty(old(spawned), Fallback, DefaultCols, DefaultRows))
        && spawned == old(spawned) + 1
        && trace == old(trace) + [Spawned(old(spawned), Fallback, config.bin, config.fallbackArgs, DefaultCols, DefaultRows)]
      ensures old(currentPty).Some? ==>
        currentPty == old(currentPty) && trace == old(trace) && spawned == old(spawned)
    {
      timers := timers - 1;
      if currentPty.None? {
        StartPty(Fallback);
      }
    }

    /** `ws.on("close")`: `clients.delete(ws)`. */
    method ClientClosed(c: ClientId)
      requires Valid()
      modifies this
      ensures Valid()
      ensures clients == Without(old(clients), c)
      ensures transport == old(transport)[c := Closed]
      ensures currentPty == old(currentPty) && trace == old(trace) && timers == old(timers)
      ensures spawned == old(spawned)
    {
      clients := Without(clients, c);
      transport := transport[c := Closed];
    }

    /** The `ws` library moves a socket to another ready state (for example, it starts closing). */
    method TransportChanges(c: ClientId, s: ReadyState)
      requires Valid()
      modifies this`transport
      ensures Valid()
      ensures transport == old(transport)[c := s]
    {
      transport := transport[c := s];
    }

    /** `p.onData`: the chunk's UTF-8 bytes go to every open client; none is removed. */
    method PtyData(id: nat, data: string)
      requires Valid() && id < spawned
      modifies this`trace
      ensures trace == old(trace) + Fanout(clients, transport, Encode(data))
    {
      SendToOpenClients(Encode(data));
    }

    /** `p.onExit`: forget the child, close every client with 1000 "shell-exit", and empty the set. */
    method PtyExit(id: nat)
      requires Valid() && id in Live
      modifies this
      ensures Valid()
      ensures currentPty == None && Live == {} && clients == []
      ensures trace == old(trace) + CloseAll(old(clients))
      ensures transport == old(transport) && timers == old(timers) && spawned == old(spawned)
    {
      currentPty := None;
      Live := {};
      CloseEveryClient();
      clients := [];
    }

    /** The exit handler's `for (const ws of clients) ws.close(1000, "shell-exit")`. */
    method CloseEveryClient()
      modifies this`trace
      ensures trace == old(trace) + CloseAll(clients)
    {
      var i := 0;
      while i < |clients|
        invariant 0 <= i <= |clients|
        invariant trace == old(trace) + CloseAll(clients[..i])
      {
        trace := trace + [ClosedWith(clients[i], NormalClosure, ExitReason)];
        i := i + 1;
      }
      assert clients[..|clients|] == clients;
    }

    /** `ws.on("message")`: ignored without a child; otherwise resize or write as `Classify` decides. */
    method OnMessage(f: Frame, parse: string -> Parse, decode: seq<byte> -> string)
      requires Valid()
      modifies this
      ensures Valid()
      ensures clients == old(clients) && transport == old(transport) && timers == old(timers)
      ensures spawned == old(spawned)
      ensures old(currentPty).None? ==> currentPty == None && trace == old(trace)
      ensures old(currentPty).Some? ==>
        var p := old(currentPty).value;
        match Classify(f, parse, decode)
        case NoAction => currentPty == old(currentPty) && trace == old(trace)
        case ResizeTo(c, r) => currentPty == Some(p.(cols := c, rows := r)) && trace == old(trace) + [Resized(p.id, c, r)]
        case Write(d) => currentPty == old(currentPty) && trace == old(trace) + [Wrote(p.id, d)]
    {
      if currentPty.Some? {
        var p := currentPty.value;
        match Classify(f, parse, decode)
        case NoAction =>
        case ResizeTo(c, r) =>
          currentPty := Some(p.(cols := c, rows := r));
          trace := trace + [Resized(p.id, c, r)];
        case Write(d) =>
          trace := trace + [Wrote(p.id, d)];
      }
    }

    /** The HTTP handler: 400 without a URL, the info page on `GET /`, `/input`, `/write`, else 404. */
    method HandleHttp(req: Request) returns (resp: Response)
      requires Valid()
      modifies this
      ensures Valid()
      ensures currentPty == old(currentPty) && clients == old(clients) && transport == old(transport)
      ensures timers == old(timers) && spawned == old(spawned)
      ensures req.url.None? ==> resp == Response(400, PlainText("Bad request")) && trace == old(trace)
      ensures req.url == Some("/") && req.verb == "GET" ==> resp == Response(200, InfoPage) && trace == old(trace)
      ensures req.url == Some("/input") && req.verb == "POST" ==>
        match req.body
        case Malformed(m) => resp == Response(400, Json(Refused(m))) && trace == old(trace)
        case Data(d) =>
          if old(currentPty).None? then resp == Response(503, Json(Refused("no PTY"))) && trace == old(trace)
          else resp == Response(200, Json(Accepted(ByteLength(TextOf(d))))) &&
               trace == old(trace) + [Wrote(old(currentPty).value.id, TextOf(d))]
      ensures req.url == Some("/write") && req.verb == "POST" ==>
        match req.body
        case Malformed(m) => resp == Response(400, Json(Refused(m))) && trace == old(trace)
        case Data(d) => resp == Response(200, Json(Accepted(ByteLength(TextOf(d))))) &&
                        trace == old(trace) + Fanout(clients, transport, Encode(TextOf(d)))
      ensures req.url.Some? && !(req.verb == "GET" && req.url.value == "/") &&
              !(req.verb == "POST" && req.url.value in {"/input", "/write"}) ==>
        resp == Response(404, PlainText("Not found")) && trace == old(trace)
    {
      if req.url.None? {
        return Response(400, PlainText("Bad request"));
      }
      var url := req.url.value;
      if req.verb == "GET" && url == "/" {
        return Response(200, InfoPage);
      }
      if req.verb == "POST" && url == "/input" {
        match req.body
        case Malformed(m) =>
          return Response(400, Json(Refused(m)));
        case Data(d) =>
          if currentPty.None? {
            return Response(503, Json(Refused("no PTY")));
          }
          var text := TextOf(d);
          trace := trace + [Wrote(currentPty.value.id, text)];
          return Response(200, Json(Accepted(ByteLength(text))));
      }
      if req.verb == "POST" && url == "/write" {
        match req.body
        case Malformed(m) =>
          return Response(400, Json(Refused(m)));
        case Data(d) =>
          var text := TextOf(d);
          SendToOpenClients(Encode(text));
          return Response(200, Json(Accepted(ByteLength(text))));
      }
      resp := Response(404, PlainText("Not found"));
    }
  }

  /** After a single spawn, the first chunk of output reaches every open client of the set
      and is all that client has been sent. */
  lemma FirstChunkShared(first: seq<Effect>, cs: seq<ClientId>, st: map<ClientId, ReadyState>, e: seq<byte>, c: ClientId)
    requires |first| == 1 && first[0].Spawned?
    requires Distinct(cs) && c in cs && IsOpen(st, c)
    ensures Received(first + Fanout(cs, st, e), c) == [e]
  {
    assert first[..0] == [];
    FanoutKeepsOrder(first, cs, st, e, c);
  }

  /** The two-connection scenario: A connects with no child and the primary spawns; B connects
      while it runs and nothing more is spawned. Both are then open clients, so by
      `FirstChunkShared` the child's first chunk reaches both. */
  method TwoClientsShareOneChild(cfg: Config, a: ClientId, b: ClientId)
    returns (children: nat, trace: seq<Effect>, clients: seq<ClientId>, transport: map<ClientId, ReadyState>)
    requires a != b
    ensures children == 1 && |trace| == 1 && trace[0] == Spawned(0, Primary, cfg.bin, cfg.primaryArgs, DefaultCols, DefaultRows)
    ensures Distinct(clients) && a in clients && b in clients && IsOpen(transport, a) && IsOpen(transport, b)
  {
    var bridge := new Bridge(cfg);
    bridge.Connect(a);
    bridge.Connect(b);
    children, trace, clients, transport := bridge.spawned, bridge.trace, bridge.clients, bridge.transport;
  }
}
