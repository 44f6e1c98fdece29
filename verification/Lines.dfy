/** The incremental line splitter `DrainPipeLines` (internal/agent/executor/executor.go)
    and the reference it refines: split the whole byte stream on newline. */
module Lines {

  newtype byte = b: int | 0 <= b < 256
  type Text = seq<byte>

  const NEWLINE: byte := 0x0a

  // ── strings.Split(s, "\n") ───────────────────────────────────────────────

  /** The pieces of `s` between newlines; one piece more than there are newlines. */
  function Split(s: Text): (pieces: seq<Text>)
    ensures |pieces| > 0
  {
    if s == [] then [[]]
    else if s[0] == NEWLINE then [[]] + Split(s[1..])
    else var rest := Split(s[1..]); [[s[0]] + rest[0]] + rest[1..]
  }

  function Join(pieces: seq<Text>): Text
    requires |pieces| > 0
  {
    if |pieces| == 1 then pieces[0] else pieces[0] + [0x0a] + Join(pieces[1..])
  }

  predicate OneLiners(pieces: seq<Text>) {
    forall i :: 0 <= i < |pieces| ==> 0x0a !in pieces[i]
  }

  lemma {:induction false} SplitJoins(s: Text)
    ensures OneLiners(Split(s)) && Join(Split(s)) == s
  {
    if s != [] {
      SplitJoins(s[1..]);
      var rest, mine := Split(s[1..]), Split(s);
      if s[0] == NEWLINE {
        assert mine[1..] == rest;
        assert Join(mine) == [NEWLINE] + Join(rest);
      } else {
        assert mine[1..] == rest[1..];
        assert Join(mine) == [s[0]] + Join(rest);
      }
    }
  }

  /** `Split` is the only way to write a text as newline-free pieces joined by newlines. */
  lemma {:induction false} SplitUnique(s: Text, pieces: seq<Text>)
    requires |pieces| > 0 && OneLiners(pieces) && Join(pieces) == s
    ensures pieces == Split(s)
    decreases |s|
  {
    if s == [] {
      assert |pieces| == 1;
    } else if s[0] == NEWLINE {
      NewlineFirst(pieces, s);
      SplitUnique(s[1..], pieces[1..]);
    } else {
      var shorter := ByteFirst(pieces, s);
      SplitUnique(s[1..], shorter);
    }
  }

  lemma NewlineFirst(pieces: seq<Text>, s: Text)
    requires |pieces| > 0 && OneLiners(pieces) && Join(pieces) == s && s != [] && s[0] == NEWLINE
    ensures |pieces| > 1 && pieces[0] == [] && Join(pieces[1..]) == s[1..] && OneLiners(pieces[1..])
  {
  }

  lemma ByteFirst(pieces: seq<Text>, s: Text) returns (shorter: seq<Text>)
    requires |pieces| > 0 && OneLiners(pieces) && Join(pieces) == s && s != [] && s[0] != NEWLINE
    ensures |shorter| > 0 && OneLiners(shorter) && Join(shorter) == s[1..]
    ensures pieces == [[s[0]] + shorter[0]] + shorter[1..]
  {
    assert pieces[0] != [] && pieces[0][0] == s[0];
    shorter := [pieces[0][1..]] + pieces[1..];
    assert shorter[1..] == pieces[1..];
    assert OneLiners(shorter);
    assert pieces[0] == [s[0]] + shorter[0];
    assert pieces == [pieces[0]] + pieces[1..];
  }

  // ── The reference: the lines of a whole stream ───────────────────────────

  /** Split the stream on newline; a trailing empty piece is not a line. */
  function LinesOf(stream: Text): seq<Text> {
    var pieces := Split(stream);
    if pieces[|pieces| - 1] == [] then pieces[..|pieces| - 1] else pieces
  }

  // ── The incremental splitter ─────────────────────────────────────────────

  /** One `Read` on the pipe: the bytes it returned and whether it also returned an error. */
  datatype Read = Read(data: Text, err: bool)

  /** Reads end at the first error, which may come with data; no read has to return data. */
  predicate Pipe(input: seq<Read>) {
    |input| > 0 && input[|input| - 1].err && forall i :: 0 <= i < |input| - 1 ==> !input[i].err
  }

  function Stream(input: seq<Read>): Text {
    if input == [] then [] else Stream(input[..|input| - 1]) + input[|input| - 1].data
  }

  /** Every line with its newline put back. */
  function Unlines(lines: seq<Text>): Text {
    if lines == [] then [] else lines[0] + [0x0a] + Unlines(lines[1..])
  }

  lemma {:induction false} JoinAppend(lines: seq<Text>, pieces: seq<Text>)
    requires |pieces| > 0
    ensures Join(lines + pieces) == Unlines(lines) + Join(pieces)
  {
    if lines == [] {
      assert lines + pieces == pieces;
    } else {
      assert (lines + pieces)[1..] == lines[1..] + pieces;
      JoinAppend(lines[1..], pieces);
    }
  }

  /** What an incremental splitter holds: complete lines and a newline-free leftover that
      together rebuild everything read so far. */
  predicate Holds(emitted: seq<Text>, leftover: Text, consumed: Text) {
    OneLiners(emitted) && NEWLINE !in leftover && Unlines(emitted) + leftover == consumed
  }

  lemma HoldsIsSplit(emitted: seq<Text>, leftover: Text, consumed: Text)
    ensures Holds(emitted, leftover, consumed) <==> emitted + [leftover] == Split(consumed)
  {
    var pieces := emitted + [leftover];
    JoinAppend(emitted, [leftover]);
    assert leftover == pieces[|emitted|];
    assert forall i :: 0 <= i < |emitted| ==> emitted[i] == pieces[i];
    if Holds(emitted, leftover, consumed) {
      SplitUnique(consumed, pieces);
    }
    SplitJoins(consumed);
  }

  /** Feeding more data: emit all but the last piece of leftover + data, keep the last. */
  lemma Feed(emitted: seq<Text>, leftover: Text, consumed: Text, data: Text, lines: seq<Text>)
    requires Holds(emitted, leftover, consumed)
    requires |lines| > 0 && OneLiners(lines) && Join(lines) == leftover + data
    ensures Holds(emitted + lines[..|lines| - 1], lines[|lines| - 1], consumed + data)
  {
    var n := |lines| - 1;
    assert OneLiners(emitted + lines[..n]) by {
      OneLinersAppend(emitted, lines[..n]);
    }
    Rebuild(emitted, lines);
    Glue(Unlines(emitted), leftover, data);
  }

  lemma FeedChunk(emitted: seq<Text>, leftover: Text, consumed: Text, data: Text, complete: seq<Text>, rest: Text)
    requires Holds(emitted, leftover, consumed) && complete + [rest] == Split(leftover + data)
    ensures Holds(emitted + complete, rest, consumed + data)
  {
    var lines := complete + [rest];
    SplitJoins(leftover + data);
    Feed(emitted, leftover, consumed, data, lines);
    assert lines[..|lines| - 1] == complete;
  }

  lemma OneLinersAppend(xs: seq<Text>, ys: seq<Text>)
    requires OneLiners(xs) && OneLiners(ys)
    ensures OneLiners(xs + ys)
  {
  }

  lemma Glue(s: Text, t: Text, u: Text)
    ensures s + (t + u) == (s + t) + u
  {
  }

  lemma Rebuild(emitted: seq<Text>, lines: seq<Text>)
    requires |lines| > 0
    ensures Unlines(emitted + lines[..|lines| - 1]) + lines[|lines| - 1] == Unlines(emitted) + Join(lines)
  {
    var n := |lines| - 1;
    JoinAppend(emitted + lines[..n], [lines[n]]);
    JoinAppend(emitted, lines);
    assert (emitted + lines[..n]) + [lines[n]] == emitted + lines;
  }

  lemma StreamStep(input: seq<Read>, k: nat)
    requires k < |input|
    ensures Stream(input[..k + 1]) == Stream(input[..k]) + input[k].data
  {
    assert input[..k + 1][..k] == input[..k];
  }

  /** One read that returned data: the lines it completes, and the new leftover. */
  method TakeChunk(leftover: Text, data: Text) returns (complete: seq<Text>, rest: Text)
    ensures complete + [rest] == Split(leftover + data)
  {
    var chunk := leftover + data;
    var lines := Split(chunk);
    complete := [];
    for i := 0 to |lines| - 1
      invariant complete == lines[..i]
    {
      complete := complete + [lines[i]];
    }
    rest := lines[|lines| - 1];
  }

  /** The lines handed to the callback, in order, for any way the stream was cut into reads. */
  method DrainPipeLines(input: seq<Read>) returns (emitted: seq<Text>)
    requires Pipe(input)
    ensures emitted == LinesOf(Stream(input))
  {
    emitted := [];
    var leftover: Text := [];
    var k := 0;
    while true
      invariant 0 <= k < |input|
      invariant Holds(emitted, leftover, Stream(input[..k]))
      decreases |input| - k
    {
      var read := input[k];
      StreamStep(input, k);
      if |read.data| > 0 {
        var complete, rest := TakeChunk(leftover, read.data);
        FeedChunk(emitted, leftover, Stream(input[..k]), read.data, complete, rest);
        emitted, leftover := emitted + complete, rest;
      }
      assert Holds(emitted, leftover, Stream(input[..k + 1]));
      if read.err {
        assert input[..k + 1] == input;
        HoldsIsSplit(emitted, leftover, Stream(input));
        if leftover != [] {
          emitted := emitted + [leftover];
        }
        return;
      }
      k := k + 1;
    }
  }

  // ── What the lines of a stream are ───────────────────────────────────────

  lemma LinesRebuild(stream: Text)
    ensures var lines := LinesOf(stream);
      && OneLiners(lines)
      && (stream == Unlines(lines)
          || (lines != [] && lines[|lines| - 1] != []
              && stream == Unlines(lines[..|lines| - 1]) + lines[|lines| - 1]))
  {
    var pieces := Split(stream);
    var front, last := pieces[..|pieces| - 1], pieces[|pieces| - 1];
    SplitJoins(stream);
    assert pieces == front + [last];
    JoinAppend(front, [last]);
    assert Join([last]) == last;
    if last == [] {
      assert Unlines(front) + [] == Unlines(front);
    }
  }

  lemma LinesTerminated(stream: Text, lines: seq<Text>)
    requires OneLiners(lines) && stream == Unlines(lines)
    ensures LinesOf(stream) == lines
  {
    var pieces := lines + [[]];
    JoinAppend(lines, [[]]);
    assert Join([[]]) == [] && Unlines(lines) + [] == Unlines(lines);
    SplitUnique(stream, pieces);
    assert pieces[..|pieces| - 1] == lines;
  }

  lemma LinesUnterminated(stream: Text, lines: seq<Text>)
    requires OneLiners(lines) && lines != [] && lines[|lines| - 1] != []
    requires stream == Unlines(lines[..|lines| - 1]) + lines[|lines| - 1]
    ensures LinesOf(stream) == lines
  {
    var front, last := lines[..|lines| - 1], lines[|lines| - 1];
    JoinAppend(front, [last]);
    assert Join([last]) == last && lines == front + [last];
    SplitUnique(stream, lines);
  }

  /** The stream consists of these texts, each followed by a newline, except that the last one
      may lack it if it is not empty. */
  predicate Consists(stream: Text, lines: seq<Text>) {
    || stream == Unlines(lines)
    || (lines != [] && lines[|lines| - 1] != [] && stream == Unlines(lines[..|lines| - 1]) + lines[|lines| - 1])
  }

  /** The lines of a stream are the only newline-free texts that it consists of. */
  lemma LinesExactly(stream: Text, lines: seq<Text>)
    ensures lines == LinesOf(stream) <==> OneLiners(lines) && Consists(stream, lines)
  {
    LinesRebuild(stream);
    if OneLiners(lines) && Consists(stream, lines) {
      if stream == Unlines(lines) {
        LinesTerminated(stream, lines);
      } else {
        LinesUnterminated(stream, lines);
      }
    }
  }
}
