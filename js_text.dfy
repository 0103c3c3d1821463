/** JavaScript string semantics that the routes and servers rely on:
    `startsWith`, a trailing-suffix `replace`, `||` on strings, `process.env`
    lookups, `trim`, decimal rendering of counts, and `split(" ").filter(Boolean)`. */
module JsText {

  datatype Option<+T> = None | Some(value: T) {
    function GetOr(default: T): T {
      match this
      case Some(v) => v
      case None => default
    }
  }

  datatype Result<+R, +E> = Ok(value: R) | Err(error: E)

  /** A JavaScript number after `Number(...)`. Only integral finite values are modelled. */
  datatype JsNumber = NaN | Finite(v: int) | PosInf | NegInf {
    /** `Number.isFinite(n)` */
    predicate IsFinite() { Finite? }
    /** Truthiness of a number: NaN and 0 are falsy. */
    predicate Truthy() { (Finite? && v != 0) || PosInf? || NegInf? }
  }

  /** `s.startsWith(p)` */
  predicate StartsWith(s: string, p: string) {
    |p| <= |s| && s[..|p|] == p
  }

  /** `s` ends with `p` (the `$` anchor of a regular expression without the m flag) */
  predicate EndsWith(s: string, p: string) {
    |p| <= |s| && s[|s| - |p|..] == p
  }

  /** `s.slice(p.length)` after a successful `startsWith(p)` */
  function DropPrefix(s: string, p: string): (r: string)
    requires StartsWith(s, p)
    ensures p + r == s
  {
    s[|p|..]
  }

  /** `a || b` where both sides are strings: the empty string is the only falsy string. */
  function Or(a: string, b: string): (r: string)
    ensures a != "" ==> r == a
    ensures a == "" ==> r == b
  {
    if a != "" then a else b
  }

  /** The process environment; an unset variable reads as `undefined`, which `||` treats like "". */
  type Env = map<string, string>

  /** `process.env[k] || ""` */
  function EnvGet(env: Env, k: string): (r: string)
    ensures k !in env ==> r == ""
    ensures k in env ==> r == env[k]
  {
    if k in env then env[k] else ""
  }

  /** The characters ECMAScript's `trim` removes: WhiteSpace and LineTerminator. */
  const JsWhitespace: set<char> := {
    '\t', '\n', '\U{000B}', '\U{000C}', '\r', ' ', '\U{00A0}', '\U{1680}',
    '\U{2000}', '\U{2001}', '\U{2002}', '\U{2003}', '\U{2004}', '\U{2005}',
    '\U{2006}', '\U{2007}', '\U{2008}', '\U{2009}', '\U{200A}',
    '\U{2028}', '\U{2029}', '\U{202F}', '\U{205F}', '\U{3000}', '\U{FEFF}'
  }

  predicate IsJsWhitespace(c: char) {
    c in JsWhitespace
  }

  predicate IsBlank(s: string) {
    forall i :: 0 <= i < |s| ==> IsJsWhitespace(s[i])
  }

  function TrimStart(s: string): (r: string)
    ensures |r| <= |s| && r == s[|s| - |r|..]
    ensures r == "" || !IsJsWhitespace(r[0])
    ensures IsBlank(s[..|s| - |r|])
  {
    if s == [] || !IsJsWhitespace(s[0]) then s
    else
      var r := TrimStart(s[1..]);
      assert s[..|s| - |r|] == [s[0]] + s[1..][..|s| - 1 - |r|];
      r
  }

  function TrimEnd(s: string): (r: string)
    ensures |r| <= |s| && r == s[..|r|]
    ensures r == "" || !IsJsWhitespace(r[|r| - 1])
    ensures IsBlank(s[|r|..])
  {
    if s == [] || !IsJsWhitespace(s[|s| - 1]) then s
    else
      var r := TrimEnd(s[..|s| - 1]);
      assert s[|r|..] == s[..|s| - 1][|r|..] + [s[|s| - 1]];
      r
  }

  /** `s.trim()` */
  function Trim(s: string): (r: string)
    ensures |r| <= |s|
    ensures r == "" || (!IsJsWhitespace(r[0]) && !IsJsWhitespace(r[|r| - 1]))
  {
    TrimEnd(TrimStart(s))
  }

  /** `trim` removes whitespace only, from the two ends: what is left is a contiguous
      piece of `s`, starting where `TrimStart` stopped ... */
  lemma TrimIsInfix(s: string)
    ensures |s| - |TrimStart(s)| + |Trim(s)| <= |s|
    ensures Trim(s) == s[|s| - |TrimStart(s)|..|s| - |TrimStart(s)| + |Trim(s)|]
  {
    PrefixOfSuffix(s, TrimStart(s), Trim(s));
  }

  /** ... and everything before and after that piece is whitespace. */
  lemma TrimCutsBlank(s: string)
    ensures IsBlank(s[..|s| - |TrimStart(s)|])
    ensures IsBlank(s[|s| - |TrimStart(s)| + |Trim(s)|..])
  {
    var t := TrimStart(s);
    var r := TrimEnd(t);
    PrefixOfSuffix(s, t, r);
    BlankSame(t[|r|..], s[|s| - |t| + |r|..]);
  }

  /** A prefix `r` of a suffix `t` of `s` is a slice of `s`, and so is what `t` has after `r`. */
  lemma PrefixOfSuffix<T>(s: seq<T>, t: seq<T>, r: seq<T>)
    requires |t| <= |s| && t == s[|s| - |t|..] && |r| <= |t| && r == t[..|r|]
    ensures r == s[|s| - |t|..|s| - |t| + |r|] && t[|r|..] == s[|s| - |t| + |r|..]
  {
  }

  lemma BlankSame(a: string, b: string)
    requires IsBlank(a) && a == b
    ensures IsBlank(b)
  {
  }

  /** `s.trim() !== ""` holds exactly when `s` has a character that is not whitespace. */
  lemma {:induction false} TrimEmptyIffBlank(s: string)
    ensures Trim(s) == "" <==> IsBlank(s)
  {
    var t := TrimStart(s);
    assert s == s[..|s| - |t|] + t;
    if Trim(s) == "" {
      assert IsBlank(t[|Trim(s)|..]);
      assert t[|Trim(s)|..] == t;
      assert t == "";
      forall i | 0 <= i < |s| ensures IsJsWhitespace(s[i]) {
        assert s[i] == s[..|s| - |t|][i];
      }
    } else {
      var r := Trim(s);
      assert r == t[..|r|];
      assert t[0] == r[0];
      assert s[|s| - |t|] == t[0];
    }
  }

  /* ---------------------------- decimal numerals ---------------------------- */

  predicate IsDigit(c: char) { '0' <= c <= '9' }

  function DigitChar(d: nat): (c: char)
    requires d < 10
    ensures IsDigit(c) && c as int - '0' as int == d
  {
    ('0' as int + d) as char
  }

  /** The decimal text JavaScript gives a non-negative integer (`${n}`). */
  function NatToDecimal(n: nat): (r: string)
    ensures |r| >= 1
    ensures forall i :: 0 <= i < |r| ==> IsDigit(r[i])
    ensures n > 0 ==> r[0] != '0'
  {
    if n < 10 then [DigitChar(n)] else NatToDecimal(n / 10) + [DigitChar(n % 10)]
  }

  /** The value of a run of decimal digits (what `parseInt(s, 10)` gives for such a run). */
  function DigitValue(c: char): (d: nat)
    requires IsDigit(c)
    ensures d < 10
  {
    c as int - '0' as int
  }

  function DecimalValue(s: string): nat
    requires forall i :: 0 <= i < |s| ==> IsDigit(s[i])
  {
    if s == [] then 0
    else DecimalValue(s[..|s| - 1]) * 10 + DigitValue(s[|s| - 1])
  }

  lemma {:induction false} DecimalRoundTrip(n: nat)
    ensures DecimalValue(NatToDecimal(n)) == n
  {
    if n >= 10 {
      DecimalRoundTrip(n / 10);
      var r := NatToDecimal(n);
      assert r[..|r| - 1] == NatToDecimal(n / 10);
    }
  }

  /* ------------------------- split(" ").filter(Boolean) --------------------- */

  /** Index of the first space in `s`, or `|s|`. */
  function SpaceIndex(s: string): (k: nat)
    ensures k <= |s|
    ensures forall i :: 0 <= i < k ==> s[i] != ' '
    ensures k < |s| ==> s[k] == ' '
  {
    if s == [] || s[0] == ' ' then 0 else 1 + SpaceIndex(s[1..])
  }

  /** `s.split(" ").filter(Boolean)`: the non-empty pieces between single spaces. */
  function Words(s: string): (r: seq<string>)
    ensures forall w :: w in r ==> IsWord(w)
    decreases |s|
  {
    if s == [] then []
    else if s[0] == ' ' then Words(s[1..])
    else
      var k := SpaceIndex(s);
      [s[..k]] + Words(s[k..])
  }

  predicate IsWord(w: string) {
    w != "" && forall i :: 0 <= i < |w| ==> w[i] != ' '
  }

  function JoinSpaces(ws: seq<string>): string {
    if ws == [] then "" else if |ws| == 1 then ws[0] else ws[0] + " " + JoinSpaces(ws[1..])
  }

  lemma AppendAssoc<T>(a: seq<T>, b: seq<T>, c: seq<T>)
    ensures a + (b + c) == (a + b) + c
  {
  }

  /** Joining one more word in front puts it and a space before the rest. */
  lemma JoinCons(w: string, ws: seq<string>)
    requires ws != []
    ensures JoinSpaces([w] + ws) == w + " " + JoinSpaces(ws)
  {
    assert ([w] + ws)[1..] == ws;
  }

  /** Joining two non-empty lists puts one space between their joins. */
  lemma {:induction false} JoinAppend(xs: seq<string>, ys: seq<string>)
    requires xs != [] && ys != []
    ensures JoinSpaces(xs + ys) == JoinSpaces(xs) + " " + JoinSpaces(ys)
  {
    if |xs| == 1 {
      assert (xs + ys)[1..] == ys;
    } else {
      JoinAppend(xs[1..], ys);
      assert (xs + ys)[1..] == xs[1..] + ys;
      AppendAssoc(xs[0] + " ", JoinSpaces(xs[1..]), " " + JoinSpaces(ys));
    }
  }

  /** An independent reading of the same split, one character at a time: runs of spaces
      become one space, and spaces before the first and after the last word vanish.
      `pending` says a space is owed before the next word, `started` that a word was seen. */
  function SqueezeFrom(s: string, pending: bool, started: bool): string
    decreases |s|
  {
    if s == [] then ""
    else if s[0] == ' ' then SqueezeFrom(s[1..], started, started)
    else (if pending then " " else "") + [s[0]] + SqueezeFrom(s[1..], false, true)
  }

  function Squeeze(s: string): string {
    SqueezeFrom(s, false, false)
  }

  /** The words joined back with single spaces, with a leading space when one is owed. */
  function Lead(started: bool, ws: seq<string>): string {
    if ws == [] then "" else (if started then " " else "") + JoinSpaces(ws)
  }

  /** Reading a run of `k` non-space characters emits them after any owed space. */
  lemma {:induction false} SqueezeRun(s: string, k: nat, pending: bool, started: bool)
    requires 0 < k <= |s| && forall i :: 0 <= i < k ==> s[i] != ' '
    ensures SqueezeFrom(s, pending, started) ==
            (if pending then " " else "") + s[..k] + SqueezeFrom(s[k..], false, true)
    decreases k
  {
    var pre := if pending then " " else "";
    assert SqueezeFrom(s, pending, started) == pre + [s[0]] + SqueezeFrom(s[1..], false, true);
    if k == 1 {
      assert s[..1] == [s[0]];
    } else {
      SqueezeRun(s[1..], k - 1, false, true);
      var mid := s[1..][..k - 1];
      var rest := SqueezeFrom(s[k..], false, true);
      assert s[1..][k - 1..] == s[k..];
      assert SqueezeFrom(s[1..], false, true) == mid + rest;
      AppendAssoc(pre + [s[0]], mid, rest);
      assert s[..k] == [s[0]] + mid;
      AppendAssoc(pre, [s[0]], mid);
    }
  }

  lemma {:induction false} SqueezeWords(s: string, started: bool)
    ensures SqueezeFrom(s, started, started) == Lead(started, Words(s))
    decreases |s|, 1
  {
    if s != [] {
      if s[0] == ' ' {
        SqueezeWords(s[1..], started);
      } else {
        var k := SpaceIndex(s);
        var w := s[..k];
        SqueezeRun(s, k, started, started);
        assert Words(s) == [w] + Words(s[k..]);
        SqueezeAfterWord(s[k..]);
        LeadCons(started, w, Words(s[k..]));
      }
    }
  }

  /** After a word, the rest starts with a space or is empty: it contributes its words with a leading space. */
  lemma {:induction false} SqueezeAfterWord(u: string)
    requires u == [] || u[0] == ' '
    ensures SqueezeFrom(u, false, true) == Lead(true, Words(u))
    decreases |u|, 0
  {
    if u != [] {
      SqueezeWords(u[1..], true);
    }
  }

  lemma LeadCons(started: bool, w: string, rest: seq<string>)
    ensures Lead(started, [w] + rest) == (if started then " " else "") + w + Lead(true, rest)
  {
    if rest != [] {
      JoinCons(w, rest);
    } else {
      assert [w] + rest == [w];
    }
  }

  /** `s.split(" ").filter(Boolean).join(" ")` is `s` with each run of spaces made one
      and the spaces at either end dropped; with `WordsOfJoin` this pins the split down. */
  lemma WordsSqueeze(s: string)
    ensures JoinSpaces(Words(s)) == Squeeze(s)
  {
    SqueezeWords(s, false);
  }

  /** Splitting undoes `args.join(" ")` for a list of non-empty, space-free words. */
  lemma {:induction false} WordsOfJoin(ws: seq<string>)
    requires forall i :: 0 <= i < |ws| ==> IsWord(ws[i])
    ensures Words(JoinSpaces(ws)) == ws
  {
    if ws != [] {
      var w := ws[0];
      var s := JoinSpaces(ws);
      SpaceIndexOfWord(w, if |ws| == 1 then "" else " " + JoinSpaces(ws[1..]));
      if |ws| == 1 {
        assert s == w + "";
        assert s[|w|..] == [];
        assert Words(s) == [w] + Words([]);
      } else {
        WordsOfJoin(ws[1..]);
        var t := " " + JoinSpaces(ws[1..]);
        assert s[|w|..] == t;
        assert t[1..] == JoinSpaces(ws[1..]);
        assert Words(t) == Words(JoinSpaces(ws[1..]));
        assert IsWord(w) && w[0] != ' ';
        assert s == w + t && s[0] == w[0];
        assert SpaceIndex(s) == |w|;
        assert Words(s) == [s[..|w|]] + Words(s[|w|..]);
      }
    }
  }

  lemma SpaceIndexOfWord(w: string, rest: string)
    requires IsWord(w)
    requires rest == "" || rest[0] == ' '
    ensures SpaceIndex(w + rest) == |w|
    ensures (w + rest)[..|w|] == w && (w + rest)[|w|..] == rest
  {
    var s := w + rest;
    assert |w| < |s| ==> s[|w|] == ' ';
    assert forall i :: 0 <= i < |w| ==> s[i] == w[i];
  }
}
