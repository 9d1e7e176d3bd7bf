/** The reader of the positions a rover sends in the body of its streaming request.

    The body arrives in chunks cut anywhere; the reader keeps a bounded buffer for the unfinished
    line. Decoding, stripping and parsing a line as GGA are one partial function.
 */
module GgaReader {
  import opened Wrappers
  import opened RtcmSplitter
  import opened Nearest

  const NEWLINE: byte := 10
  const MAX_GGA_BUFFER := 4096

  type Parser = seq<byte> -> Option<Place>

  // Lines ended so far, without their newline, and the bytes since the last newline.
  datatype Reading = Reading(lines: seq<seq<byte>>, rest: seq<byte>)

  const NOTHING := Reading([], [])

  // Reading on, byte by byte.
  function Continued(t: Reading, s: seq<byte>): Reading
    decreases |s|
  {
    if s == [] then t
    else
      var before, last := Continued(t, s[..|s| - 1]), s[|s| - 1];
      if last == NEWLINE then Reading(before.lines + [before.rest], []) else before.(rest := before.rest + [last])
  }

  // The lines of a whole body.
  function Cut(body: seq<byte>): Reading {
    Continued(NOTHING, body)
  }

  function Bounded(t: Reading): Reading {
    if |t.rest| > MAX_GGA_BUFFER then t.(rest := []) else t
  }

  // What the reader got from the chunks, and what its buffer holds.
  function Received(chunks: seq<seq<byte>>): Reading {
    if chunks == [] then NOTHING else Bounded(Continued(Received(chunks[..|chunks| - 1]), chunks[|chunks| - 1]))
  }

  function Body(chunks: seq<seq<byte>>): seq<byte> {
    if chunks == [] then [] else Body(chunks[..|chunks| - 1]) + chunks[|chunks| - 1]
  }

  // The position of the last parseable line.
  function LastFix(parse: Parser, lines: seq<seq<byte>>): Option<Place> {
    if lines == [] then None
    else
      var fix := parse(lines[|lines| - 1]);
      if fix.Some? then fix else LastFix(parse, lines[..|lines| - 1])
  }

  // Line i is the last that parses, and it says p.
  ghost predicate LastAt(parse: Parser, lines: seq<seq<byte>>, p: Place, i: nat) {
    i < |lines| && parse(lines[i]) == Some(p) && forall j :: i < j < |lines| ==> parse(lines[j]).None?
  }

  lemma {:induction false} LastFixIff(parse: Parser, lines: seq<seq<byte>>, p: Place)
    ensures LastFix(parse, lines) == Some(p) <==> exists i: nat :: LastAt(parse, lines, p, i)
  {
    if lines != [] {
      var n, init := |lines| - 1, lines[..|lines| - 1];
      LastFixIff(parse, init, p);
      if parse(lines[n]) == Some(p) {
        assert LastAt(parse, lines, p, n);
      } else if parse(lines[n]).None? {
        forall i: nat
          ensures LastAt(parse, lines, p, i) <==> LastAt(parse, init, p, i)
        {
          if i < n && LastAt(parse, init, p, i) {
            assert forall j :: i < j < n ==> lines[j] == init[j];
          }
        }
      } else {
        assert forall i: nat :: LastAt(parse, lines, p, i) ==> i == n;
      }
    }
  }

  lemma {:induction false} ContinuingAdds(t: Reading, a: seq<byte>, b: seq<byte>)
    ensures Continued(t, a + b) == Continued(Continued(t, a), b)
    decreases |b|
  {
    if b == [] {
      assert a + b == a;
    } else {
      assert (a + b)[..|a + b| - 1] == a + b[..|b| - 1];
      ContinuingAdds(t, a, b[..|b| - 1]);
    }
  }

  lemma {:induction false} NoNewlineGrowsRest(t: Reading, s: seq<byte>)
    requires NEWLINE !in s
    ensures Continued(t, s) == Reading(t.lines, t.rest + s)
  {
    if s == [] {
      assert t.rest + s == t.rest;
    } else {
      NoNewlineGrowsRest(t, s[..|s| - 1]);
      assert t.rest + s == t.rest + s[..|s| - 1] + [s[|s| - 1]];
    }
  }

  lemma {:induction false} RestHasNoNewline(t: Reading, s: seq<byte>)
    requires NEWLINE !in t.rest
    ensures NEWLINE !in Continued(t, s).rest
  {
    if s != [] {
      RestHasNoNewline(t, s[..|s| - 1]);
    }
  }

  // Each line with its newline.
  function Ended(lines: seq<seq<byte>>): seq<byte> {
    if lines == [] then [] else Ended(lines[..|lines| - 1]) + lines[|lines| - 1] + [10]
  }

  ghost predicate IsCutOf(t: Reading, body: seq<byte>) {
    body == Ended(t.lines) + t.rest && 10 !in t.rest && forall i :: 0 <= i < |t.lines| ==> 10 !in t.lines[i]
  }

  lemma {:induction false} CutIsACut(body: seq<byte>)
    ensures IsCutOf(Cut(body), body)
  {
    if body != [] {
      var init, last := body[..|body| - 1], body[|body| - 1];
      CutIsACut(init);
      var t, before := Cut(body), Cut(init);
      assert body == init + [last];
      if last == 10 {
        assert t.lines[..|t.lines| - 1] == before.lines;
      }
    }
  }

  lemma {:induction false} LinesComeBack(lines: seq<seq<byte>>)
    requires forall i :: 0 <= i < |lines| ==> 10 !in lines[i]
    ensures Cut(Ended(lines)) == Reading(lines, [])
  {
    if lines != [] {
      var init, last := lines[..|lines| - 1], lines[|lines| - 1];
      LinesComeBack(init);
      OneMoreLine(init, Ended(init), last);
      assert Ended(init) + last + [10] == Ended(init) + (last + [10]);
      assert lines == init + [last];
    }
  }

  lemma OneMoreLine(lines: seq<seq<byte>>, body: seq<byte>, line: seq<byte>)
    requires 10 !in line && Cut(body) == Reading(lines, [])
    ensures Cut(body + (line + [10])) == Reading(lines + [line], [])
  {
    ContinuingAdds(NOTHING, body, line + [10]);
    NoNewlineGrowsRest(Reading(lines, []), line);
    assert (line + [10])[..|line|] == line && [] + line == line;
  }

  // The lines of a body are what its newlines end, and the rest is what comes after the last one.
  lemma CutIff(body: seq<byte>, t: Reading)
    ensures t == Cut(body) <==> IsCutOf(t, body)
  {
    CutIsACut(body);
    if IsCutOf(t, body) {
      LinesComeBack(t.lines);
      ContinuingAdds(NOTHING, Ended(t.lines), t.rest);
      NoNewlineGrowsRest(Reading(t.lines, []), t.rest);
      assert [] + t.rest == t.rest;
    }
  }

  // One `split` at the first newline takes one line off the buffer.
  lemma SplittingTakesALine(lines: seq<seq<byte>>, buf: seq<byte>, i: nat)
    requires i < |buf| && buf[i] == NEWLINE && NEWLINE !in buf[..i]
    ensures Continued(Reading(lines, []), buf) == Continued(Reading(lines + [buf[..i]], []), buf[i + 1..])
  {
    var upto := buf[..i + 1];
    assert buf == upto + buf[i + 1..];
    ContinuingAdds(Reading(lines, []), upto, buf[i + 1..]);
    assert upto[..|upto| - 1] == buf[..i];
    NoNewlineGrowsRest(Reading(lines, []), buf[..i]);
    assert [] + buf[..i] == buf[..i];
    assert Continued(Reading(lines, []), upto) == Reading(lines + [buf[..i]], []);
  }

  method FindNewline(buf: seq<byte>) returns (at: nat)
    requires NEWLINE in buf
    ensures at < |buf| && buf[at] == NEWLINE && NEWLINE !in buf[..at]
  {
    at := 0;
    while buf[at] != NEWLINE
      invariant at < |buf| && NEWLINE !in buf[..at]
      decreases |buf| - at
    {
      at := at + 1;
    }
  }

  // The reader: the position it last stored, the lines it parsed and what its buffer holds in the end.
  method ReadRoverGga(chunks: seq<seq<byte>>, parse: Parser)
    returns (position: Option<Place>, lines: seq<seq<byte>>, buf: seq<byte>)
    ensures Reading(lines, buf) == Received(chunks)
    ensures position == LastFix(parse, lines)
  {
    position, lines, buf := None, [], [];
    for k := 0 to |chunks|
      invariant Reading(lines, buf) == Received(chunks[..k]) && NEWLINE !in buf
      invariant position == LastFix(parse, lines)
    {
      assert chunks[..k + 1][..k] == chunks[..k];
      var chunk := chunks[k];
      if chunk == [] {
        EmptyChunkIsNothing(chunks[..k]);
        continue;
      }
      NoNewlineGrowsRest(Reading(lines, []), buf);
      assert [] + buf == buf;
      ContinuingAdds(Reading(lines, []), buf, chunk);
      buf := buf + chunk;
      while NEWLINE in buf
        invariant Continued(Reading(lines, []), buf) == Continued(Received(chunks[..k]), chunk)
        invariant position == LastFix(parse, lines)
        decreases |buf|
      {
        var at := FindNewline(buf);
        SplittingTakesALine(lines, buf, at);
        var line := buf[..at];
        lines, buf := lines + [line], buf[at + 1..];
        assert lines[..|lines| - 1] + [line] == lines;
        var gga := parse(line);
        if gga.Some? {
          position := gga;
        }
      }
      NoNewlineGrowsRest(Reading(lines, []), buf);
      assert [] + buf == buf;
      if |buf| > MAX_GGA_BUFFER {
        buf := [];
      }
    }
    assert chunks[..|chunks|] == chunks;
  }

  lemma {:induction false} ReceivedIsBounded(chunks: seq<seq<byte>>)
    ensures |Received(chunks).rest| <= MAX_GGA_BUFFER && NEWLINE !in Received(chunks).rest
  {
    if chunks != [] {
      ReceivedIsBounded(chunks[..|chunks| - 1]);
      RestHasNoNewline(Received(chunks[..|chunks| - 1]), chunks[|chunks| - 1]);
    }
  }

  lemma EmptyChunkIsNothing(chunks: seq<seq<byte>>)
    ensures Received(chunks + [[]]) == Received(chunks)
  {
    assert (chunks + [[]])[..|chunks|] == chunks;
    ReceivedIsBounded(chunks);
  }

  // ---- what the bound costs ------------------------------------------------

  // Chunk k ends a line of which more than the bound had arrived before it.
  predicate Overrun(chunks: seq<seq<byte>>, k: nat) {
    k < |chunks| && |Cut(Body(chunks[..k])).rest| > MAX_GGA_BUFFER && NEWLINE in chunks[k]
  }

  ghost predicate NeverOverruns(chunks: seq<seq<byte>>) {
    forall k: nat :: k < |chunks| ==> !Overrun(chunks, k)
  }

  // Two readings of the same chunk, one having lost a part of the unfinished line.
  lemma {:induction false} LostPartShows(t: Reading, u: Reading, s: seq<byte>)
    requires |t.lines| == |u.lines| && |t.rest| < |u.rest|
    ensures |Continued(t, s).lines| == |Continued(u, s).lines|
    ensures NEWLINE in s ==>
              Continued(t, s).rest == Continued(u, s).rest && Continued(t, s).lines != Continued(u, s).lines
    ensures NEWLINE !in s ==>
              && |Continued(t, s).rest| < |Continued(u, s).rest| && |Continued(u, s).rest| >= |u.rest|
              && Continued(t, s).lines == t.lines && Continued(u, s).lines == u.lines
    decreases |s|
  {
    if s != [] {
      var init, last := s[..|s| - 1], s[|s| - 1];
      assert s == init + [last];
      LostPartShows(t, u, init);
      var a, b := Continued(t, init), Continued(u, init);
      if last == NEWLINE {
        assert a.lines + [a.rest] == b.lines + [b.rest] ==> a.lines == b.lines && a.rest == b.rest by {
          AppendingIsInjective(a.lines, a.rest, b.lines, b.rest);
        }
      }
    }
  }

  lemma AppendingIsInjective<T>(a: seq<T>, x: T, b: seq<T>, y: T)
    ensures a + [x] == b + [y] <==> a == b && x == y
  {
    if a + [x] == b + [y] {
      assert (a + [x])[..|a|] == a && (b + [y])[..|b|] == b;
      assert (a + [x])[|a|] == x && (b + [y])[|b|] == y;
    }
  }

  // The reader and the cut of the whole body so far agree on all but an overlong unfinished line.
  ghost predicate KeepsUp(chunks: seq<seq<byte>>) {
    var read, whole := Received(chunks), Cut(Body(chunks));
    && |read.lines| == |whole.lines|
    && (read.rest == whole.rest || (|read.rest| < |whole.rest| && |whole.rest| > MAX_GGA_BUFFER))
    && (read.rest == whole.rest ==> |whole.rest| <= MAX_GGA_BUFFER)
    && (read.lines == whole.lines <==> NeverOverruns(chunks))
  }

  lemma OverrunsBefore(chunks: seq<seq<byte>>, chunk: seq<byte>)
    ensures NeverOverruns(chunks + [chunk]) <==> NeverOverruns(chunks) && !Overrun(chunks + [chunk], |chunks|)
  {
    var all := chunks + [chunk];
    forall k: nat | k < |chunks|
      ensures Overrun(all, k) <==> Overrun(chunks, k)
    {
      assert all[..k] == chunks[..k];
    }
    if NeverOverruns(all) {
      forall k: nat | k < |chunks|
        ensures !Overrun(chunks, k)
      {
        assert !Overrun(all, k);
      }
    }
  }

  lemma ChunkKeepsUp(chunks: seq<seq<byte>>, chunk: seq<byte>)
    requires KeepsUp(chunks)
    ensures KeepsUp(chunks + [chunk])
  {
    var all := chunks + [chunk];
    assert all[..|chunks|] == chunks;
    var read, whole := Received(chunks), Cut(Body(chunks));
    ContinuingAdds(NOTHING, Body(chunks), chunk);
    OverrunsBefore(chunks, chunk);
    if read.rest == whole.rest {
      SameRestSameLines(read, whole, chunk);
    } else {
      LostPartShows(read, whole, chunk);
    }
  }

  lemma {:induction false} SameRestSameLines(t: Reading, u: Reading, s: seq<byte>)
    requires |t.lines| == |u.lines| && t.rest == u.rest
    ensures Continued(t, s).rest == Continued(u, s).rest
    ensures |Continued(t, s).lines| == |Continued(u, s).lines|
    ensures Continued(t, s).lines == Continued(u, s).lines <==> t.lines == u.lines
    decreases |s|
  {
    if s != [] {
      var init := s[..|s| - 1];
      SameRestSameLines(t, u, init);
      AppendingIsInjective(Continued(t, init).lines, Continued(t, init).rest, Continued(u, init).lines,
          Continued(u, init).rest);
    }
  }

  lemma {:induction false} ReaderKeepsUp(chunks: seq<seq<byte>>)
    ensures KeepsUp(chunks)
  {
    if chunks != [] {
      var init := chunks[..|chunks| - 1];
      ReaderKeepsUp(init);
      ChunkKeepsUp(init, chunks[|chunks| - 1]);
      assert init + [chunks[|chunks| - 1]] == chunks;
    }
  }

  // For every chunking, the lines parsed are exactly the newline-terminated lines of the body if
  // and only if no line is ended after more than the bound of it had already arrived.
  lemma LinesAreThoseOfTheBodyIff(chunks: seq<seq<byte>>)
    ensures Received(chunks).lines == Cut(Body(chunks)).lines <==> NeverOverruns(chunks)
  {
    ReaderKeepsUp(chunks);
  }

  // ---- over all chunkings --------------------------------------------------

  ghost predicate LinesFit(body: seq<byte>) {
    forall i :: 0 <= i < |Cut(body).lines| ==> |Cut(body).lines[i]| <= MAX_GGA_BUFFER
  }

  // The next newline ends the unfinished line, which only got longer.
  lemma {:induction false} RestBecomesALine(t: Reading, s: seq<byte>)
    requires NEWLINE in s
    ensures |Continued(t, s).lines| > |t.lines| && |Continued(t, s).lines[|t.lines|]| >= |t.rest|
    decreases |s|
  {
    var init, last := s[..|s| - 1], s[|s| - 1];
    assert s == init + [last];
    if NEWLINE in init {
      RestBecomesALine(t, init);
    } else {
      NoNewlineGrowsRest(t, init);
    }
  }

  // Every line was the unfinished line just before its newline.
  lemma {:induction false} LineHasItsEnd(s: seq<byte>, j: nat) returns (n: nat)
    requires j < |Cut(s).lines|
    ensures n < |s| && s[n] == NEWLINE && Cut(s[..n]).rest == Cut(s).lines[j]
    decreases |s|
  {
    var init := s[..|s| - 1];
    if j < |Cut(init).lines| {
      n := LineHasItsEnd(init, j);
      assert init[..n] == s[..n];
    } else {
      n := |s| - 1;
    }
  }

  lemma {:induction false} BodyFrom(chunks: seq<seq<byte>>, k: nat) returns (after: seq<byte>)
    requires k < |chunks|
    ensures Body(chunks) == Body(chunks[..k]) + after
    ensures NEWLINE in chunks[k] ==> NEWLINE in after
    decreases |chunks|
  {
    var n := |chunks| - 1;
    if k == n {
      after := chunks[k];
    } else {
      var before := BodyFrom(chunks[..n], k);
      assert chunks[..n][..k] == chunks[..k];
      after := before + chunks[n];
    }
  }

  lemma OverrunMeansLongLine(chunks: seq<seq<byte>>, k: nat)
    requires Overrun(chunks, k)
    ensures !LinesFit(Body(chunks))
  {
    var after := BodyFrom(chunks, k);
    var u := Cut(Body(chunks[..k]));
    ContinuingAdds(NOTHING, Body(chunks[..k]), after);
    RestBecomesALine(u, after);
    assert |Cut(Body(chunks)).lines[|u.lines|]| > MAX_GGA_BUFFER;
  }

  lemma BodyOfTwo(a: seq<byte>, b: seq<byte>)
    ensures Body([a]) == a && Body([a, b]) == a + b
  {
    assert [a][..0] == [] && [] + a == a;
    assert [a, b][..1] == [a];
  }

  lemma LongLineCanBeLost(body: seq<byte>, j: nat) returns (chunks: seq<seq<byte>>)
    requires j < |Cut(body).lines| && |Cut(body).lines[j]| > MAX_GGA_BUFFER
    ensures Body(chunks) == body && !NeverOverruns(chunks)
  {
    var n := LineHasItsEnd(body, j);
    chunks := [body[..n], body[n..]];
    BodyOfTwo(body[..n], body[n..]);
    assert body == body[..n] + body[n..] && chunks[..1] == [body[..n]] && body[n..][0] == NEWLINE;
    assert Overrun(chunks, 1);
  }

  // However the body is cut, exactly its newline-terminated lines are parsed, and the position
  // stored in the end is that of the last parseable one, if and only if every line fits the bound.
  lemma EveryChunkingReadsTheLinesIff(body: seq<byte>)
    ensures LinesFit(body) <==>
            forall chunks: seq<seq<byte>> :: Body(chunks) == body ==> Received(chunks).lines == Cut(body).lines
  {
    forall chunks: seq<seq<byte>> | Body(chunks) == body
      ensures Received(chunks).lines == Cut(body).lines <==> NeverOverruns(chunks)
    {
      LinesAreThoseOfTheBodyIff(chunks);
    }
    if LinesFit(body) {
      forall chunks: seq<seq<byte>>, k: nat | Body(chunks) == body && k < |chunks|
        ensures !Overrun(chunks, k)
      {
        if Overrun(chunks, k) {
          OverrunMeansLongLine(chunks, k);
        }
      }
    } else {
      var j: nat :| j < |Cut(body).lines| && |Cut(body).lines[j]| > MAX_GGA_BUFFER;
      var chunks := LongLineCanBeLost(body, j);
    }
  }
}
