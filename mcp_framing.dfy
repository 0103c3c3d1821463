/** The LSP-style message framing of mcp/mcp-shell-session.mjs: the stdin reader
    that cuts `Content-Length: N\r\n\r\n<N bytes>` frames out of a growing byte
    buffer, and `send`, which writes one such frame. The header regular expression
    `/Content-Length:\s*(\d+)/i` is matched on the header's bytes; its letters,
    digits and separators are all ASCII. */
module McpFraming {
  import opened JsText
  import opened Utf8

  const CrLfCrLf: seq<byte> := [13, 10, 13, 10]

  /** "Content-Length: ", the start of every header `send` writes. */
  const LengthPrefix: seq<byte> := [67, 111, 110, 116, 101, 110, 116, 45, 76, 101, 110, 103, 116, 104, 58, 32]

  /** The field name the reader's regular expression looks for, "content-length:" in
      lower case; the `i` flag compares letters after lowering both sides. */
  const FieldName: seq<byte> := [99, 111, 110, 116, 101, 110, 116, 45, 108, 101, 110, 103, 116, 104, 58]

  /* ------------------------------- buf.indexOf ------------------------------- */

  predicate MatchesAt(buf: seq<byte>, pat: seq<byte>, j: nat) {
    j + |pat| <= |buf| && buf[j..j + |pat|] == pat
  }

  /** `buf.indexOf(pat, from)`: the first position at or after `from` where `pat` occurs. */
  function IndexFrom(buf: seq<byte>, pat: seq<byte>, from: nat): (r: Option<nat>)
    ensures r.Some? ==> from <= r.value && MatchesAt(buf, pat, r.value)
    ensures r.Some? ==> forall j :: from <= j < r.value ==> !MatchesAt(buf, pat, j)
    ensures r.None? ==> forall j :: from <= j ==> !MatchesAt(buf, pat, j)
    decreases |buf| - from
  {
    if from + |pat| > |buf| then None
    else if buf[from..from + |pat|] == pat then Some(from)
    else IndexFrom(buf, pat, from + 1)
  }

  /** `indexOf` finds a match exactly when no earlier position matches. */
  lemma FirstOccurrence(buf: seq<byte>, pat: seq<byte>, k: nat)
    requires MatchesAt(buf, pat, k)
    requires forall j :: 0 <= j < k ==> !MatchesAt(buf, pat, j)
    ensures IndexFrom(buf, pat, 0) == Some(k)
  {
  }

  function HeaderEnd(buf: seq<byte>): (r: Option<nat>)
    ensures r.Some? ==> r.value + 4 <= |buf|
  {
    IndexFrom(buf, CrLfCrLf, 0)
  }

  /* ---------------------- /Content-Length:\s*(\d+)/i ------------------------ */

  function Lower(b: byte): byte {
    if 65 <= b <= 90 then b + 32 else b
  }

  predicate IsSpace(b: byte) {
    b == 9 || b == 10 || b == 11 || b == 12 || b == 13 || b == 32
  }

  predicate IsDigitByte(b: byte) {
    48 <= b <= 57
  }

  predicate NameAt(h: seq<byte>, i: nat) {
    i + 15 <= |h| && forall k :: 0 <= k < 15 ==> Lower(h[i + k]) == FieldName[k]
  }

  /** The end of the run of spaces starting at `j` (the `\s*`). */
  function SkipSpaces(h: seq<byte>, j: nat): (k: nat)
    requires j <= |h|
    ensures j <= k <= |h|
    decreases |h| - j
  {
    if j < |h| && IsSpace(h[j]) then SkipSpaces(h, j + 1) else j
  }

  /** The regular expression matches at `i`: the name, optional spaces, at least one digit. */
  predicate MatchAt(h: seq<byte>, i: nat) {
    NameAt(h, i) &&
    var j := SkipSpaces(h, i + 15);
    j < |h| && IsDigitByte(h[j])
  }

  /** The leftmost match at or after `from`. */
  function FirstMatch(h: seq<byte>, from: nat): (r: Option<nat>)
    ensures r.Some? ==> from <= r.value && r.value + 15 <= |h|
    decreases |h| - from
  {
    if from + 15 > |h| then None
    else if MatchAt(h, from) then Some(from)
    else FirstMatch(h, from + 1)
  }

  /** `parseInt` of the run of digits (the `(\d+)`) starting at `j`, continuing from `acc`. */
  function ReadDigits(h: seq<byte>, j: nat, acc: nat): nat
    decreases |h| - j
  {
    if j < |h| && IsDigitByte(h[j]) then ReadDigits(h, j + 1, acc * 10 + (h[j] as int - 48)) else acc
  }

  /** `parseInt(header.match(...)[1], 10)`, or `None` when the header does not match. */
  function ContentLength(h: seq<byte>): Option<nat> {
    match FirstMatch(h, 0)
    case None => None
    case Some(i) => Some(ReadDigits(h, SkipSpaces(h, i + 15), 0))
  }

  /* --------------------------------- the reader ------------------------------ */

  /** What one turn of the loop does with the buffer: `break` (header or body still
      incomplete), drop an unparseable header, or cut one frame body. */
  datatype Turn = Stop | Skip(next: seq<byte>) | Take(body: seq<byte>, next: seq<byte>)

  function NextTurn(buf: seq<byte>): (t: Turn)
    ensures !t.Stop? ==> |t.next| < |buf| && t.next == buf[|buf| - |t.next|..]
    ensures t.Take? ==> |t.body| < |buf| - |t.next| && t.body == buf[|buf| - |t.next| - |t.body|..|buf| - |t.next|]
  {
    match HeaderEnd(buf)
    case None => Stop
    case Some(h) =>
      match ContentLength(buf[..h])
      case None => Skip(buf[h + 4..])
      case Some(len) =>
        var total := h + 4 + len;
        if |buf| < total then Stop
        else
          Take(buf[h + 4..total], buf[total..])
  }

  /** What the reader leaves in `buf` and the frame bodies it cut out, in order. */
  datatype Drained = Drained(rest: seq<byte>, bodies: seq<seq<byte>>)

  /** The stdin `while (true)` loop run to its `break`. */
  function Drain(buf: seq<byte>): (r: Drained)
    ensures |r.rest| <= |buf|
    decreases |buf|
  {
    match NextTurn(buf)
    case Stop => Drained(buf, [])
    case Skip(next) => Drain(next)
    case Take(body, next) =>
      var d := Drain(next);
      Drained(d.rest, [body] + d.bodies)
  }

  /** The three exits of one turn: without a blank line the loop breaks and keeps the whole
      buffer; a header without `Content-Length` loses exactly itself and its blank line; a
      body that has not fully arrived breaks the loop with the whole buffer kept. */
  lemma DrainBreaks(buf: seq<byte>)
    ensures HeaderEnd(buf).None? ==> Drain(buf) == Drained(buf, [])
    ensures HeaderEnd(buf).Some? ==> var h := HeaderEnd(buf).value;
      (ContentLength(buf[..h]).None? ==> Drain(buf) == Drain(buf[h + 4..])) &&
      (ContentLength(buf[..h]).Some? && |buf| < h + 4 + ContentLength(buf[..h]).value ==> Drain(buf) == Drained(buf, []))
  {
  }

  /** The loop only breaks when the buffer holds no complete frame: either no blank line
      ends a header yet, or the header's declared body has not fully arrived. */
  lemma {:induction false} DrainStops(buf: seq<byte>)
    ensures NextTurn(Drain(buf).rest).Stop?
    decreases |buf|
  {
    match NextTurn(buf)
    case Stop =>
    case Skip(next) =>
      DrainStops(next);
    case Take(body, next) =>
      DrainStops(next);
  }

  /** What the loop leaves behind is the unread tail of the buffer. */
  lemma {:induction false} DrainRestIsTail(buf: seq<byte>)
    ensures Drain(buf).rest == buf[|buf| - |Drain(buf).rest|..]
    decreases |buf|
  {
    match NextTurn(buf)
    case Stop =>
    case Skip(next) =>
      DrainRestIsTail(next);
    case Take(body, next) =>
      DrainRestIsTail(next);
  }

  /** The messages that `JSON.parse` accepts, in order; bodies it rejects are dropped. */
  function ParseAll<M>(bodies: seq<seq<byte>>, parse: seq<byte> -> Option<M>): (r: seq<M>)
    ensures |r| <= |bodies|
  {
    if bodies == [] then []
    else
      var last := bodies[|bodies| - 1];
      ParseAll(bodies[..|bodies| - 1], parse) + (if parse(last).Some? then [parse(last).value] else [])
  }

  /** One body: dispatched when `JSON.parse` accepts it, dropped when it throws. */
  lemma ParseAllOne<M>(b: seq<byte>, parse: seq<byte> -> Option<M>)
    ensures ParseAll([b], parse) == if parse(b).Some? then [parse(b).value] else []
  {
    assert [b][..0] == [];
  }

  lemma {:induction false} ParseAllAppend<M>(a: seq<seq<byte>>, b: seq<seq<byte>>, parse: seq<byte> -> Option<M>)
    ensures ParseAll(a + b, parse) == ParseAll(a, parse) + ParseAll(b, parse)
    decreases |b|
  {
    if b == [] {
      assert a + b == a;
    } else {
      assert (a + b)[..|a + b| - 1] == a + b[..|b| - 1];
      ParseAllAppend(a, b[..|b| - 1], parse);
    }
  }

  /** The reader's state: the module-level `buf`. */
  class StdinReader {
    var buf: seq<byte>

    constructor ()
      ensures buf == []
    {
      buf := [];
    }

    /** `process.stdin.on("data")`: append the chunk, then cut frames until the loop breaks.
        Returns the parsed messages handed to `handleMessage`, in order. */
    method OnData<M>(chunk: seq<byte>, parse: seq<byte> -> Option<M>) returns (msgs: seq<M>)
      modifies this
      ensures buf == Drain(old(buf) + chunk).rest
      ensures msgs == ParseAll(Drain(old(buf) + chunk).bodies, parse)
    {
      var b := buf + chunk;
      ghost var all := Drain(b);
      ghost var consumed: seq<seq<byte>> := [];
      msgs := [];
      while true
        invariant Drain(b).rest == all.rest
        invariant all.bodies == consumed + Drain(b).bodies
        invariant msgs == ParseAll(consumed, parse)
        decreases |b|
      {
        var turn := NextTurn(b);
        if turn.Stop? {
          break;
        }
        if turn.Skip? {
          b := turn.next;
          continue;
        }
        var body := turn.body;
        b := turn.next;
        var one: seq<seq<byte>> := [body];
        AppendAssoc(consumed, one, Drain(b).bodies);
        ParseAllAppend(consumed, one, parse);
        assert ParseAll(one, parse) == (if parse(body).Some? then [parse(body).value] else []) by {
          assert one[..0] == [];
        }
        consumed := consumed + one;
        if parse(body).Some? {
          msgs := msgs + [parse(body).value];
        }
      }
      buf := b;
      assert all.bodies == consumed;
    }
  }

  /* ------------------------------------ send ---------------------------------- */

  /** The ASCII bytes of `${n}`. */
  function DigitBytes(n: nat): (d: seq<byte>)
    ensures |d| == |NatToDecimal(n)| >= 1
    ensures forall i :: 0 <= i < |d| ==> IsDigitByte(d[i]) && d[i] == NatToDecimal(n)[i] as int
  {
    var s := NatToDecimal(n);
    seq(|s|, i requires 0 <= i < |s| => s[i] as int)
  }

  /** `Content-Length: ${n}\r\n\r\n` as bytes. */
  function FrameHeader(n: nat): (h: seq<byte>)
    ensures |h| == 20 + |DigitBytes(n)|
  {
    LengthPrefix + DigitBytes(n) + CrLfCrLf
  }

  /** `send(msg)` given `JSON.stringify(msg)`: the header, then the UTF-8 body. */
  function Send(json: string): (bytes: seq<byte>)
    ensures bytes == FrameHeader(ByteLength(json)) + Encode(json)
  {
    var body := Encode(json);
    FrameHeader(|body|) + body
  }

  /** `Buffer.from(header, "utf8")` is exactly `FrameHeader`. */
  lemma HeaderIsUtf8(n: nat)
    ensures Encode("Content-Length: " + NatToDecimal(n) + "\r\n\r\n") == FrameHeader(n)
  {
    var d := NatToDecimal(n);
    EncodeAppend("Content-Length: " + d, "\r\n\r\n");
    EncodeAppend("Content-Length: ", d);
    LengthPrefixBytes();
    CrLfCrLfBytes();
    DigitsAreBytes(n);
  }

  lemma LengthPrefixBytes()
    ensures Encode("Content-Length: ") == LengthPrefix
  {
    EncodeAscii("Content-Length: ");
  }

  lemma CrLfCrLfBytes()
    ensures Encode("\r\n\r\n") == CrLfCrLf
  {
    EncodeAscii("\r\n\r\n");
  }

  /** The decimal digits encode to the bytes `DigitBytes` lists. */
  lemma DigitsAreBytes(n: nat)
    ensures Encode(NatToDecimal(n)) == DigitBytes(n)
  {
    var d := NatToDecimal(n);
    assert IsAscii(d) by {
      forall i | 0 <= i < |d| ensures d[i] as int < 0x80 {
        assert DigitBytes(n)[i] == d[i] as int;
      }
    }
    EncodeAscii(d);
  }

  /* ------------------------------ the round trip ------------------------------ */

  /** Only the header's own `\r\n\r\n` can be the first blank line of a frame. */
  lemma HeaderEndOfFrame(n: nat, tail: seq<byte>)
    ensures HeaderEnd(FrameHeader(n) + tail) == Some(16 + |DigitBytes(n)|)
  {
    var buf := FrameHeader(n) + tail;
    var e := 16 + |DigitBytes(n)|;
    assert buf[e..e + 4] == CrLfCrLf;
    forall j | 0 <= j < e ensures !MatchesAt(buf, CrLfCrLf, j) {
      if j < 16 {
        assert buf[j] == LengthPrefix[j];
      } else {
        assert buf[j] == DigitBytes(n)[j - 16];
      }
      assert buf[j] != 13;
    }
    FirstOccurrence(buf, CrLfCrLf, e);
  }

  /** The reader's regular expression recovers `n` from the header `send` writes. */
  lemma LengthOfHeader(n: nat)
    ensures ContentLength(LengthPrefix + DigitBytes(n)) == Some(n)
  {
    var d := DigitBytes(n);
    var h := LengthPrefix + d;
    assert NameAt(h, 0) by {
      forall k | 0 <= k < 15 ensures Lower(h[k]) == FieldName[k] {
        assert h[k] == LengthPrefix[k];
        assert k == 0 || k == 1 || k == 2 || k == 3 || k == 4 || k == 5 || k == 6 || k == 7 ||
               k == 8 || k == 9 || k == 10 || k == 11 || k == 12 || k == 13 || k == 14;
      }
    }
    assert h[15] == 32 && h[16] == d[0];
    assert SkipSpaces(h, 16) == 16;
    assert SkipSpaces(h, 15) == 16;
    assert MatchAt(h, 0);
    assert FirstMatch(h, 0) == Some(0);
    var t := NatToDecimal(n);
    forall m | 16 <= m < |h| ensures h[m] == t[m - 16 + 0] as int {
      assert h[m] == d[m - 16];
    }
    assert t[..0] == [];
    ReadDigitsValue(h, 16, t, 0);
    DecimalRoundTrip(n);
  }

  /** Reading a run of digits that spells out the numeral `t` from its `i`-th digit on
      continues the numeral's value from its first `i` digits. */
  lemma {:induction false} ReadDigitsValue(h: seq<byte>, j: nat, t: string, i: nat)
    requires j <= |h| && i <= |t| && |h| - j == |t| - i
    requires forall m :: 0 <= m < |t| ==> IsDigit(t[m])
    requires forall m :: j <= m < |h| ==> h[m] == t[m - j + i] as int
    ensures ReadDigits(h, j, DecimalValue(t[..i])) == DecimalValue(t)
    decreases |h| - j
  {
    if j < |h| {
      assert h[j] == t[i] as int;
      assert t[..i + 1][..i] == t[..i];
      ReadDigitsValue(h, j + 1, t, i + 1);
    } else {
      assert t[..i] == t;
    }
  }

  /** One turn of the loop over a frame `send` wrote cuts out exactly its body. */
  lemma FrameTurn(body: seq<byte>, rest: seq<byte>)
    ensures NextTurn(FrameHeader(|body|) + body + rest) == Take(body, rest)
  {
    var n := |body|;
    var buf := FrameHeader(n) + body + rest;
    var e := 16 + |DigitBytes(n)|;
    assert buf == FrameHeader(n) + (body + rest);
    HeaderEndOfFrame(n, body + rest);
    assert buf[..e] == LengthPrefix + DigitBytes(n);
    LengthOfHeader(n);
    assert buf[e + 4..e + 4 + n] == body;
    assert buf[e + 4 + n..] == rest;
  }

  /** Whatever follows it, a frame written by `send` is read back as its JSON text's bytes,
      ahead of everything the rest of the stream yields. */
  lemma SendThenDrain(json: string, rest: seq<byte>)
    ensures Drain(Send(json) + rest) == Drained(Drain(rest).rest, [Encode(json)] + Drain(rest).bodies)
  {
    FrameTurn(Encode(json), rest);
  }

  /* --------------------------- chunk boundaries ------------------------------ */

  /** A turn that did not stop on `a` does the same thing when more bytes follow. */
  lemma HeaderEndExtend(a: seq<byte>, b: seq<byte>)
    requires HeaderEnd(a).Some?
    ensures HeaderEnd(a + b) == HeaderEnd(a)
  {
    var h := HeaderEnd(a).value;
    var ab := a + b;
    assert ab[h..h + 4] == a[h..h + 4];
    forall j | 0 <= j < h ensures !MatchesAt(ab, CrLfCrLf, j) {
      assert ab[j..j + 4] == a[j..j + 4];
      assert !MatchesAt(a, CrLfCrLf, j);
    }
    FirstOccurrence(ab, CrLfCrLf, h);
  }

  /** A turn that dropped a garbage header on `a` drops the same one when more bytes follow. */
  lemma SkipExtend(a: seq<byte>, b: seq<byte>)
    requires NextTurn(a).Skip?
    ensures NextTurn(a + b) == Skip(NextTurn(a).next + b)
  {
    var h := HeaderEnd(a).value;
    var ab := a + b;
    HeaderEndExtend(a, b);
    assert ab[..h] == a[..h];
    assert ab[h + 4..] == a[h + 4..] + b;
  }

  /** A turn that cut a body out of `a` cuts the same body when more bytes follow. */
  lemma TakeExtend(a: seq<byte>, b: seq<byte>)
    requires NextTurn(a).Take?
    ensures NextTurn(a + b) == Take(NextTurn(a).body, NextTurn(a).next + b)
  {
    var h := HeaderEnd(a).value;
    var ab := a + b;
    var len := ContentLength(a[..h]).value;
    var total := h + 4 + len;
    assert NextTurn(a) == Take(a[h + 4..total], a[total..]);
    HeaderEndExtend(a, b);
    assert ab[..h] == a[..h];
    assert ContentLength(ab[..h]) == Some(len);
    assert total <= |a|;
    SliceOfAppend(a, b, h + 4, total);
    assert ab[total..] == a[total..] + b;
  }

  /** A slice that lies inside `a` is the same slice of `a + b`. */
  lemma SliceOfAppend<T>(a: seq<T>, b: seq<T>, i: nat, j: nat)
    requires i <= j <= |a|
    ensures (a + b)[i..j] == a[i..j]
  {
    forall k | 0 <= k < j - i ensures (a + b)[i..j][k] == a[i..j][k] {
      assert (a + b)[i + k] == a[i + k];
    }
  }

  /** Feeding the stream in two chunks yields what feeding it at once does: the second
      chunk is read from whatever the first left in the buffer. */
  lemma {:induction false} DrainChunks(a: seq<byte>, b: seq<byte>)
    ensures Drain(a + b) ==
      Drained(Drain(Drain(a).rest + b).rest, Drain(a).bodies + Drain(Drain(a).rest + b).bodies)
    decreases |a|
  {
    var t := NextTurn(a);
    if t.Stop? {
      assert Drain(a) == Drained(a, []);
    } else if t.Skip? {
      SkipExtend(a, b);
      DrainChunks(t.next, b);
      assert Drain(a) == Drain(t.next);
      assert Drain(a + b) == Drain(t.next + b);
    } else {
      TakeExtend(a, b);
      DrainChunks(t.next, b);
      var d := Drain(t.next);
      var e := Drain(d.rest + b);
      assert Drain(a) == Drained(d.rest, [t.body] + d.bodies);
      var f := Drain(t.next + b);
      assert Drain(a + b) == Drained(f.rest, [t.body] + f.bodies);
      AppendAssoc([t.body], d.bodies, e.bodies);
    }
  }
}
