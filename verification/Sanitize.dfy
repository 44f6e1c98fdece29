/** `SanitizeLine` (internal/agent/executor/executor.go): remove ANSI escape sequences,
    then remove control characters. Lines are byte strings; on valid UTF-8 the bytes of
    a multi-byte character are all at least 0x80 and pass through both stages. */
module Sanitize {
  import opened Lines

  const ESC: byte := 0x1b
  const TAB: byte := 0x09
  const DEL: byte := 0x7f
  const BRACKET: byte := 0x5b

  // ── The regular expression \x1b(?:[@-Z\\-_]|\[[0-?]*[ -/]*[@-~]) ─────────

  /** [@-Z\\-_]: the second byte of a two-byte escape. */
  predicate Plain(c: byte) {
    0x40 <= c <= 0x5a || 0x5c <= c <= 0x5f
  }

  predicate Parameter(c: byte) {
    0x30 <= c <= 0x3f
  }

  predicate Intermediate(c: byte) {
    0x20 <= c <= 0x2f
  }

  predicate Final(c: byte) {
    0x40 <= c <= 0x7e
  }

  /** Length of the longest prefix of `s` whose bytes are all parameter bytes. */
  function Parameters(s: Text): (n: nat)
    ensures n <= |s|
  {
    if s != [] && Parameter(s[0]) then 1 + Parameters(s[1..]) else 0
  }

  function Intermediates(s: Text): (n: nat)
    ensures n <= |s|
  {
    if s != [] && Intermediate(s[0]) then 1 + Intermediates(s[1..]) else 0
  }

  /** Length of the match at the start of `s`, 0 when the expression does not match there.
      The three byte classes are disjoint, so greedy matching needs no backtracking. */
  function Match(s: Text): (n: nat)
    ensures n <= |s|
  {
    if |s| < 2 || s[0] != ESC then 0
    else if Plain(s[1]) then 2
    else if s[1] != BRACKET then 0
    else
      var p := 2 + Parameters(s[2..]);
      var q := p + Intermediates(s[p..]);
      if q < |s| && Final(s[q]) then q + 1 else 0
  }

  /** ReplaceAllString with "": drop leftmost matches, scanning on after each. */
  function Strip(s: Text): Text
    decreases |s|
  {
    if s == [] then []
    else if Match(s) > 0 then Strip(s[Match(s)..])
    else [s[0]] + Strip(s[1..])
  }

  /** One scanning step where nothing matches. */
  lemma StripHead(s: Text)
    requires s != [] && Match(s) == 0
    ensures Strip(s) == [s[0]] + Strip(s[1..])
  {
  }

  // ── Control characters ───────────────────────────────────────────────────

  predicate Printable(c: byte) {
    !((c < 0x20 && c != TAB) || c == DEL)
  }

  function Keep(s: Text): Text {
    if s == [] then []
    else if Printable(s[0]) then [s[0]] + Keep(s[1..])
    else Keep(s[1..])
  }

  function SanitizeLine(s: Text): Text {
    Keep(Strip(s))
  }

  // ── The reference: styled text ───────────────────────────────────────────

  /** Styled output: text, two-byte escapes and control sequences in the sense of
      section 5.4 of ECMA-48 (parameter bytes, intermediate bytes, one final byte), and
      single control characters such as backspace or carriage return. */
  datatype Token =
    | Words(text: Text)
    | Escape(second: byte)
    | Control(parameters: Text, intermediates: Text, final: byte)
    | Stray(c: byte)

  predicate WellFormed(t: Token) {
    match t
    case Words(text) => forall i :: 0 <= i < |text| ==> IsText(text[i])
    case Escape(c) => 0x40 <= c <= 0x5f && c != 0x5b
    case Control(ps, ms, f) =>
      && (forall i :: 0 <= i < |ps| ==> 0x30 <= ps[i] <= 0x3f)
      && (forall i :: 0 <= i < |ms| ==> 0x20 <= ms[i] <= 0x2f)
      && 0x40 <= f <= 0x7e
    case Stray(c) => !IsText(c) && c != 0x1b
  }

  /** Tab, the printable part of ASCII, and everything beyond ASCII. */
  predicate IsText(c: byte) {
    c == 0x09 || 0x20 <= c <= 0x7e || 0x80 <= c
  }

  function Render(t: Token): Text {
    match t
    case Words(text) => text
    case Escape(c) => [0x1b, c]
    case Control(ps, ms, f) => [0x1b, 0x5b] + (ps + (ms + [f]))
    case Stray(c) => [c]
  }

  function RenderAll(ts: seq<Token>): Text {
    if ts == [] then [] else Render(ts[0]) + RenderAll(ts[1..])
  }

  function PlainText(ts: seq<Token>): Text {
    if ts == [] then []
    else (if ts[0].Words? then ts[0].text else []) + PlainText(ts[1..])
  }

  lemma {:induction false} ParametersExact(ps: Text, rest: Text)
    requires forall i :: 0 <= i < |ps| ==> Parameter(ps[i])
    requires rest == [] || !Parameter(rest[0])
    ensures Parameters(ps + rest) == |ps|
  {
    if ps == [] {
      assert ps + rest == rest;
    } else {
      assert (ps + rest)[1..] == ps[1..] + rest;
      ParametersExact(ps[1..], rest);
    }
  }

  lemma {:induction false} IntermediatesExact(ms: Text, rest: Text)
    requires forall i :: 0 <= i < |ms| ==> Intermediate(ms[i])
    requires rest == [] || !Intermediate(rest[0])
    ensures Intermediates(ms + rest) == |ms|
  {
    if ms == [] {
      assert ms + rest == rest;
    } else {
      assert (ms + rest)[1..] == ms[1..] + rest;
      IntermediatesExact(ms[1..], rest);
    }
  }

  lemma MatchControl(ps: Text, ms: Text, f: byte, rest: Text, s: Text)
    requires forall i :: 0 <= i < |ps| ==> Parameter(ps[i])
    requires forall i :: 0 <= i < |ms| ==> Intermediate(ms[i])
    requires Final(f) && |s| >= 2 && s[0] == ESC && s[1] == BRACKET
    requires s[2..] == ps + (ms + ([f] + rest))
    ensures Match(s) == 3 + |ps| + |ms|
  {
    var tail := ms + ([f] + rest);
    assert tail[0] == (if ms == [] then f else ms[0]);
    ParametersExact(ps, tail);
    var p := 2 + |ps|;
    assert s[p..] == s[2..][|ps|..] == tail;
    IntermediatesExact(ms, [f] + rest);
    assert s[p + |ms|] == tail[|ms|] == f;
  }

  /** An escape token matches as a whole, whatever follows it. */
  lemma MatchToken(t: Token, rest: Text)
    requires WellFormed(t) && (t.Escape? || t.Control?)
    ensures Match(Render(t) + rest) == |Render(t)|
  {
    if t.Control? {
      ControlTail(t.parameters, t.intermediates, t.final, rest);
      MatchControl(t.parameters, t.intermediates, t.final, rest, Render(t) + rest);
    }
  }

  lemma ControlTail(ps: Text, ms: Text, f: byte, rest: Text)
    ensures (Render(Control(ps, ms, f)) + rest)[2..] == ps + (ms + ([f] + rest))
  {
    assert (ps + (ms + [f])) + rest == ps + (ms + ([f] + rest));
  }

  lemma {:induction false} StripWords(text: Text, rest: Text)
    requires forall i :: 0 <= i < |text| ==> text[i] != ESC
    ensures Strip(text + rest) == text + Strip(rest)
  {
    if text == [] {
      assert text + rest == rest;
    } else {
      StripHead(text + rest);
      assert (text + rest)[1..] == text[1..] + rest;
      StripWords(text[1..], rest);
      assert [text[0]] + (text[1..] + Strip(rest)) == text + Strip(rest);
    }
  }

  /** Styling is erased exactly: what remains is the text, all of it and nothing else. */
  lemma {:induction false} ErasesStyling(ts: seq<Token>)
    requires forall i :: 0 <= i < |ts| ==> WellFormed(ts[i])
    ensures SanitizeLine(RenderAll(ts)) == PlainText(ts)
  {
    if ts != [] {
      ErasesStyling(ts[1..]);
      var t, rest := ts[0], RenderAll(ts[1..]);
      if t.Words? || t.Stray? {
        StripWords(Render(t), rest);
        KeepAppend(Render(t), Strip(rest));
        if t.Words? {
          KeepPrintable(t.text);
        }
      } else {
        MatchToken(t, rest);
        assert (Render(t) + rest)[|Render(t)|..] == rest;
      }
    }
  }

  lemma {:induction false} KeepAppend(s: Text, t: Text)
    ensures Keep(s + t) == Keep(s) + Keep(t)
  {
    if s == [] {
      assert s + t == t;
    } else {
      assert (s + t)[1..] == s[1..] + t;
      KeepAppend(s[1..], t);
    }
  }

  lemma {:induction false} KeepPrintable(s: Text)
    requires forall i :: 0 <= i < |s| ==> Printable(s[i])
    ensures Keep(s) == s
  {
    if s != [] {
      KeepPrintable(s[1..]);
    }
  }

  // ── Every input ──────────────────────────────────────────────────────────

  lemma {:induction false} KeepOnlyPrintable(s: Text)
    ensures forall i :: 0 <= i < |Keep(s)| ==> Printable(Keep(s)[i])
  {
    if s != [] {
      KeepOnlyPrintable(s[1..]);
    }
  }

  /** Whatever the command printed, the result has no control character except tab, and
      sanitizing again changes nothing. */
  lemma SanitizedIsClean(s: Text)
    ensures forall i :: 0 <= i < |SanitizeLine(s)| ==> IsText(SanitizeLine(s)[i])
    ensures SanitizeLine(SanitizeLine(s)) == SanitizeLine(s)
  {
    var r := SanitizeLine(s);
    KeepOnlyPrintable(Strip(s));
    StripWords(r, []);
    assert r + [] == r;
    KeepPrintable(r);
  }

  /** The token an escape match stands for. */
  lemma MatchedToken(s: Text) returns (t: Token)
    requires Match(s) > 0
    ensures WellFormed(t) && (t.Escape? || t.Control?) && Render(t) == s[..Match(s)]
  {
    if Plain(s[1]) {
      t := Escape(s[1]);
    } else {
      var p := 2 + Parameters(s[2..]);
      var q := p + Intermediates(s[p..]);
      ParametersAll(s[2..]);
      IntermediatesAll(s[p..]);
      t := Control(s[2..p], s[p..q], s[q]);
      assert s[2..p] == s[2..][..p - 2] && s[p..q] == s[p..][..q - p];
      assert s[..q + 1] == [ESC, BRACKET] + (s[2..p] + (s[p..q] + [s[q]]));
    }
  }

  lemma {:induction false} ParametersAll(s: Text)
    ensures forall i :: 0 <= i < Parameters(s) ==> Parameter(s[..Parameters(s)][i])
  {
    if s != [] && Parameter(s[0]) {
      ParametersAll(s[1..]);
      assert forall i :: 0 < i < Parameters(s) ==> s[i] == s[1..][..Parameters(s[1..])][i - 1];
    }
  }

  lemma {:induction false} IntermediatesAll(s: Text)
    ensures forall i :: 0 <= i < Intermediates(s) ==> Intermediate(s[..Intermediates(s)][i])
  {
    if s != [] && Intermediate(s[0]) {
      IntermediatesAll(s[1..]);
      assert forall i :: 0 < i < Intermediates(s) ==> s[i] == s[1..][..Intermediates(s[1..])][i - 1];
    }
  }

  ghost predicate Reading(ts: seq<Token>, s: Text) {
    && (forall i :: 0 <= i < |ts| ==> WellFormed(ts[i]) || ts[i] == Stray(0x1b))
    && RenderAll(ts) == s
    && SanitizeLine(s) == PlainText(ts)
  }

  /** Nothing else is ever erased: any line at all reads as text, whole escape sequences,
      control characters and unmatched ESC bytes, and the text is what is kept. */
  lemma {:induction false} ErasesOnlyControls(s: Text) returns (ts: seq<Token>)
    ensures Reading(ts, s)
    decreases |s|
  {
    if s == [] {
      ts := [];
    } else if Match(s) > 0 {
      var t := MatchedToken(s);
      var head, tail := s[..Match(s)], s[Match(s)..];
      assert s == head + tail;
      var rest := ErasesOnlyControls(tail);
      ts := [t] + rest;
      SanitizeMatch(s, head, tail);
      ReadToken(t, rest, head, tail, s);
    } else {
      var t := if Printable(s[0]) then Words([s[0]]) else Stray(s[0]);
      var rest := ErasesOnlyControls(s[1..]);
      ts := [t] + rest;
      Cons(t, rest);
      SanitizeHead(s);
    }
  }

  /** A match is dropped as a whole. */
  lemma SanitizeMatch(s: Text, head: Text, tail: Text)
    requires |head| == Match(s) > 0 && s == head + tail
    ensures SanitizeLine(s) == SanitizeLine(tail)
  {
    assert s[|head|..] == tail;
  }

  lemma ReadToken(t: Token, rest: seq<Token>, head: Text, tail: Text, s: Text)
    requires WellFormed(t) && !t.Words? && Render(t) == head && Reading(rest, tail)
    requires s == head + tail && SanitizeLine(s) == SanitizeLine(tail)
    ensures Reading([t] + rest, s)
  {
    Cons(t, rest);
    assert [] + PlainText(rest) == PlainText(rest);
  }

  lemma SanitizeHead(s: Text)
    requires s != [] && Match(s) == 0
    ensures SanitizeLine(s) == (if Printable(s[0]) then [s[0]] else []) + SanitizeLine(s[1..])
  {
    StripHead(s);
    assert ([s[0]] + Strip(s[1..]))[1..] == Strip(s[1..]);
  }

  lemma Cons(t: Token, rest: seq<Token>)
    ensures RenderAll([t] + rest) == Render(t) + RenderAll(rest)
    ensures PlainText([t] + rest) == (if t.Words? then t.text else []) + PlainText(rest)
  {
    assert ([t] + rest)[1..] == rest;
  }
}
