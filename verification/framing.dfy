/** The MCP server's stdin loop: bytes arrive in chunks, are buffered, cut at
    newlines, stripped, decoded as JSON and handed to the dispatcher; bytes
    after the last newline wait in the buffer for the next chunk. Decoding
    is given by an oracle. */
module Framing {
  import opened Wrappers
  import opened PyJson

  newtype byte = x: int | 0 <= x < 256

  const Newline: byte := 10

  /** The position of the first newline, if any. */
  function NewlineAt(buf: seq<byte>): (i: Option<nat>)
    ensures i.None? <==> Newline !in buf
    ensures i.Some? ==> i.value < |buf| && buf[i.value] == Newline && Newline !in buf[..i.value]
  {
    if buf == [] then None
    else if buf[0] == Newline then Some(0)
    else
      match NewlineAt(buf[1..])
      case None => None
      case Some(j) =>
        assert buf[..j + 1] == [buf[0]] + buf[1..][..j];
        Some(j + 1)
  }

  /** `buffer.split(b"\n", 1)` repeated while the buffer holds a newline:
      the complete lines, without their newlines, and what is left. */
  function Split(buf: seq<byte>): (r: (seq<seq<byte>>, seq<byte>))
    ensures Newline !in r.1
    ensures forall k :: 0 <= k < |r.0| ==> Newline !in r.0[k]
    decreases |buf|
  {
    match NewlineAt(buf)
    case None => ([], buf)
    case Some(i) =>
      var (lines, rest) := Split(buf[i + 1..]);
      ([buf[..i]] + lines, rest)
  }

  /** Each line followed by a newline, then the remainder: the inverse of Split. */
  function Unsplit(lines: seq<seq<byte>>, rest: seq<byte>): seq<byte> {
    if lines == [] then rest else lines[0] + [Newline] + Unsplit(lines[1..], rest)
  }

  lemma UnsplitCons(line: seq<byte>, lines: seq<seq<byte>>, rest: seq<byte>)
    ensures Unsplit([line] + lines, rest) == line + [Newline] + Unsplit(lines, rest)
  {
    assert ([line] + lines)[1..] == lines;
  }

  lemma SplitAtNewline(buf: seq<byte>, i: nat)
    requires i < |buf| && buf[i] == Newline
    ensures buf[..i] + [Newline] + buf[i + 1..] == buf
  {
    assert buf[i..] == [buf[i]] + buf[i + 1..];
    assert buf == buf[..i] + buf[i..];
  }

  /** Splitting loses nothing. */
  lemma {:induction false} UnsplitSplit(buf: seq<byte>)
    ensures Unsplit(Split(buf).0, Split(buf).1) == buf
    decreases |buf|
  {
    var n := NewlineAt(buf);
    if n.Some? {
      var i := n.value;
      var tail := buf[i + 1..];
      UnsplitSplit(tail);
      UnsplitCons(buf[..i], Split(tail).0, Split(tail).1);
      SplitAtNewline(buf, i);
    }
  }

  /** And lines without newlines, with a remainder without one, split back
      into themselves. */
  /** The first newline after a newline-free line is the one that ends it. */
  lemma NewlineAfterLine(line: seq<byte>, tail: seq<byte>)
    requires Newline !in line
    ensures NewlineAt(line + [Newline] + tail) == Some(|line|)
  {
    var buf := line + [Newline] + tail;
    assert buf[|line|] == Newline;
    var i := NewlineAt(buf);
    if i.value < |line| {
      assert false;
    } else if i.value > |line| {
      assert false;
    }
  }

  lemma {:induction false} SplitUnsplit(lines: seq<seq<byte>>, rest: seq<byte>)
    requires Newline !in rest
    requires forall k :: 0 <= k < |lines| ==> Newline !in lines[k]
    ensures Split(Unsplit(lines, rest)) == (lines, rest)
  {
    if lines != [] {
      var buf := Unsplit(lines, rest);
      var tail := Unsplit(lines[1..], rest);
      assert buf == lines[0] + [Newline] + tail;
      NewlineAfterLine(lines[0], tail);
      assert buf[..|lines[0]|] == lines[0];
      assert buf[|lines[0]| + 1..] == tail;
      SplitUnsplit(lines[1..], rest);
      assert lines == [lines[0]] + lines[1..];
    }
  }

  lemma {:induction false} UnsplitAppendRest(lines: seq<seq<byte>>, rest: seq<byte>, more: seq<byte>)
    ensures Unsplit(lines, rest) + more == Unsplit(lines, rest + more)
  {
    if lines != [] {
      UnsplitAppendRest(lines[1..], rest, more);
    }
  }

  lemma {:induction false} UnsplitConcat(a: seq<seq<byte>>, b: seq<seq<byte>>, rest: seq<byte>)
    ensures Unsplit(a, Unsplit(b, rest)) == Unsplit(a + b, rest)
  {
    if a != [] {
      UnsplitConcat(a[1..], b, rest);
      assert (a + b)[1..] == a[1..] + b;
    } else {
      assert a + b == b;
    }
  }

  /** A chunk appended to a buffer yields the buffer's lines, then the
      lines completed by the chunk: cutting the stream into chunks does not
      change the lines it is framed into. */
  lemma SplitAppend(a: seq<byte>, b: seq<byte>)
    ensures var (l1, r1) := Split(a);
            var (l2, r2) := Split(r1 + b);
            Split(a + b) == (l1 + l2, r2)
  {
    var (l1, r1) := Split(a);
    var (l2, r2) := Split(r1 + b);
    UnsplitSplit(a);
    UnsplitSplit(r1 + b);
    UnsplitAppendRest(l1, r1, b);
    UnsplitConcat(l1, l2, r2);
    assert a + b == Unsplit(l1 + l2, r2);
    assert forall k :: 0 <= k < |l1 + l2| ==> Newline !in (l1 + l2)[k] by {
      forall k | 0 <= k < |l1 + l2| ensures Newline !in (l1 + l2)[k] {
        if k < |l1| {
          assert (l1 + l2)[k] == l1[k];
        } else {
          assert (l1 + l2)[k] == l2[k - |l1|];
        }
      }
    }
    SplitUnsplit(l1 + l2, r2);
  }

  /** `bytes.strip()`: ASCII whitespace. */
  predicate IsWhitespace(b: byte) {
    b in {32, 9, 10, 11, 12, 13}
  }

  function StripStart(s: seq<byte>): (t: seq<byte>)
    ensures |t| <= |s| && t == s[|s| - |t|..]
    ensures forall k :: 0 <= k < |s| - |t| ==> IsWhitespace(s[k])
    ensures t != [] ==> !IsWhitespace(t[0])
  {
    if s != [] && IsWhitespace(s[0]) then
      var t := StripStart(s[1..]);
      assert forall k :: 1 <= k < |s| - |t| ==> s[k] == s[1..][k - 1];
      t
    else s
  }

  function StripEnd(s: seq<byte>): (t: seq<byte>)
    ensures |t| <= |s| && t == s[..|t|]
    ensures forall k :: |t| <= k < |s| ==> IsWhitespace(s[k])
    ensures t != [] ==> !IsWhitespace(t[|t| - 1])
  {
    if s != [] && IsWhitespace(s[|s| - 1]) then
      var t := StripEnd(s[..|s| - 1]);
      assert forall k :: |t| <= k < |s| - 1 ==> s[k] == s[..|s| - 1][k];
      t
    else s
  }

  /** The line without leading and trailing whitespace. */
  function Strip(s: seq<byte>): (t: seq<byte>)
    ensures t == [] <==> forall k :: 0 <= k < |s| ==> IsWhitespace(s[k])
    ensures t != [] ==> !IsWhitespace(t[0]) && !IsWhitespace(t[|t| - 1])
  {
    var a := StripStart(s);
    var t := StripEnd(a);
    assert t == [] ==> forall k :: 0 <= k < |s| ==> IsWhitespace(s[k]) by {
      if t == [] {
        forall k | 0 <= k < |s| ensures IsWhitespace(s[k]) {
        }
      }
    }
    t
  }

  /** What decoding a stripped line gives: a JSON value, a line that is not
      JSON (JSONDecodeError, skipped), or bytes that are not UTF-8 (the
      UnicodeDecodeError is not caught by the line loop). */
  datatype Decoded = Parsed(value: Json) | NotJson | NotText(message: string)

  type Decoder = seq<byte> -> Decoded

  /** The dispatcher: a reply, no reply, or the exception it raises. */
  type Handler = Json -> Result<Option<Json>, PyError>

  /** What one line does: nothing, a reply written to stdout, or an
      exception that ends the server loop. */
  datatype Step = Skip | Send(reply: Json) | Stop(message: string)

  function ServeLine(line: seq<byte>, decode: Decoder, handle: Handler): (s: Step)
    ensures (forall k :: 0 <= k < |line| ==> IsWhitespace(line[k])) ==> s == Skip
    ensures Strip(line) != [] && decode(Strip(line)).NotJson? ==> s == Skip
    ensures s.Send? <==>
              && Strip(line) != [] && decode(Strip(line)).Parsed?
              && handle(decode(Strip(line)).value).Success?
              && handle(decode(Strip(line)).value).value.Some?
    ensures s.Stop? <==>
              && Strip(line) != []
              && (decode(Strip(line)).NotText? ||
                  (decode(Strip(line)).Parsed? && handle(decode(Strip(line)).value).Failure?))
    ensures s.Skip? <==>
              || Strip(line) == []
              || decode(Strip(line)).NotJson?
              || (decode(Strip(line)).Parsed? && handle(decode(Strip(line)).value) == Success(None))
  {
    var t := Strip(line);
    if t == [] then Skip
    else
      match decode(t)
      case NotJson => Skip
      case NotText(message) => Stop(message)
      case Parsed(request) =>
        match handle(request)
        case Failure(e) => Stop(Message(e))
        case Success(None) => Skip
        case Success(Some(reply)) => Send(reply)
  }

  /** Steps in order until one stops the loop: the replies written and
      the error that stopped it, if one did. */
  function Run(steps: seq<Step>): (r: (seq<Json>, Option<string>))
    ensures |r.0| <= |steps|
  {
    if steps == [] then ([], None)
    else
      match steps[0]
      case Stop(message) => ([], Some(message))
      case Skip => Run(steps[1..])
      case Send(reply) => ([reply] + Run(steps[1..]).0, Run(steps[1..]).1)
  }

  /** Running two runs of steps is running the first, then, unless it
      stopped, the second. */
  lemma {:induction false} RunAppend(a: seq<Step>, b: seq<Step>)
    ensures Run(a).1.Some? ==> Run(a + b) == Run(a)
    ensures Run(a).1.None? ==> Run(a + b) == (Run(a).0 + Run(b).0, Run(b).1)
  {
    if a == [] {
      assert a + b == b;
      assert [] + Run(b).0 == Run(b).0;
    } else {
      assert (a + b)[0] == a[0] && (a + b)[1..] == a[1..] + b;
      RunAppend(a[1..], b);
      if a[0].Send? && Run(a).1.None? {
        assert [a[0].reply] + (Run(a[1..]).0 + Run(b).0) == ([a[0].reply] + Run(a[1..]).0) + Run(b).0;
      }
    }
  }

  /** What each line does. */
  function Steps(lines: seq<seq<byte>>, decode: Decoder, handle: Handler): seq<Step> {
    MapSeq(StepOf(decode, handle), lines)
  }

  function StepOf(decode: Decoder, handle: Handler): seq<byte> -> Step {
    line => ServeLine(line, decode, handle)
  }

  /** `f` applied to each element. */
  function MapSeq<A, B>(f: A -> B, xs: seq<A>): seq<B> {
    seq(|xs|, k requires 0 <= k < |xs| => f(xs[k]))
  }

  lemma MapSeqAppend<A, B>(f: A -> B, a: seq<A>, b: seq<A>)
    ensures MapSeq(f, a + b) == MapSeq(f, a) + MapSeq(f, b)
  {
    forall k | 0 <= k < |a| + |b| ensures MapSeq(f, a + b)[k] == (MapSeq(f, a) + MapSeq(f, b))[k] {
      if k < |a| {
        assert (a + b)[k] == a[k];
      } else {
        assert (a + b)[k] == b[k - |a|];
      }
    }
  }

  function ServeLines(lines: seq<seq<byte>>, decode: Decoder, handle: Handler): (seq<Json>, Option<string>) {
    Run(Steps(lines, decode, handle))
  }

  lemma StepsAppend(a: seq<seq<byte>>, b: seq<seq<byte>>, decode: Decoder, handle: Handler)
    ensures Steps(a + b, decode, handle) == Steps(a, decode, handle) + Steps(b, decode, handle)
  {
    MapSeqAppend(StepOf(decode, handle), a, b);
  }

  lemma ServeLinesAppend(a: seq<seq<byte>>, b: seq<seq<byte>>, decode: Decoder, handle: Handler)
    ensures ServeLines(a, decode, handle).1.Some? ==> ServeLines(a + b, decode, handle) == ServeLines(a, decode, handle)
    ensures ServeLines(a, decode, handle).1.None? ==>
              ServeLines(a + b, decode, handle) ==
              (ServeLines(a, decode, handle).0 + ServeLines(b, decode, handle).0, ServeLines(b, decode, handle).1)
  {
    StepsAppend(a, b, decode, handle);
    RunAppend(Steps(a, decode, handle), Steps(b, decode, handle));
  }

  /** The loop's state: the pending bytes, the replies written so far, and
      the error that ended it. */
  datatype Session = Session(buffer: seq<byte>, sent: seq<Json>, stopped: Option<string>)

  /** One chunk from stdin: append it and serve every completed line. */
  function Feed(s: Session, chunk: seq<byte>, decode: Decoder, handle: Handler): Session {
    if s.stopped.Some? then s
    else
      var (lines, rest) := Split(s.buffer + chunk);
      var (sent, stopped) := ServeLines(lines, decode, handle);
      Session(rest, s.sent + sent, stopped)
  }

  function Concat(chunks: seq<seq<byte>>): seq<byte> {
    if chunks == [] then [] else Concat(chunks[..|chunks| - 1]) + chunks[|chunks| - 1]
  }

  /** The server loop over the chunks read before end of input. */
  function Serve(chunks: seq<seq<byte>>, decode: Decoder, handle: Handler): Session {
    if chunks == [] then Session([], [], None)
    else Feed(Serve(chunks[..|chunks| - 1], decode, handle), chunks[|chunks| - 1], decode, handle)
  }

  /** The replies and the stopping error depend only on the bytes read, not
      on how they were chunked: they are those of the stream's complete
      lines, and bytes after the last newline are left in the buffer,
      unanswered, at end of input. */
  lemma {:induction false} ServeIsChunkingFree(chunks: seq<seq<byte>>, decode: Decoder, handle: Handler)
    ensures var s := Serve(chunks, decode, handle);
            var (lines, rest) := Split(Concat(chunks));
            && (s.sent, s.stopped) == ServeLines(lines, decode, handle)
            && (s.stopped.None? ==> s.buffer == rest)
  {
    if chunks != [] {
      var init := chunks[..|chunks| - 1];
      var last := chunks[|chunks| - 1];
      ServeIsChunkingFree(init, decode, handle);
      var s0 := Serve(init, decode, handle);
      var (l1, r1) := Split(Concat(init));
      var (l2, r2) := Split(r1 + last);
      SplitAppend(Concat(init), last);
      ServeLinesAppend(l1, l2, decode, handle);
    }
  }

  /** Two ways of chunking the same bytes get the same replies. */
  lemma SameBytesSameReplies(c1: seq<seq<byte>>, c2: seq<seq<byte>>, decode: Decoder, handle: Handler)
    requires Concat(c1) == Concat(c2)
    ensures Serve(c1, decode, handle).sent == Serve(c2, decode, handle).sent
    ensures Serve(c1, decode, handle).stopped == Serve(c2, decode, handle).stopped
  {
    ServeIsChunkingFree(c1, decode, handle);
    ServeIsChunkingFree(c2, decode, handle);
  }

  /** A run whose first step stops sends nothing. */
  lemma StopsAtFirst(steps: seq<Step>)
    requires steps != [] && steps[0].Stop?
    ensures Run(steps) == ([], Some(steps[0].message))
  {
  }
}
