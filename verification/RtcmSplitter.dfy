/** The RTCM3 stream splitter of the caster and the per-mountpoint carry-over buffer around it.

    The reference definition is a grammar: a byte stream parses as pieces, each some bytes
    without a preamble followed by one whole frame, then more such bytes, then an incomplete frame.
 */
module RtcmSplitter {

  newtype byte = b: int | 0 <= b < 256

  const PREAMBLE: byte := 0xD3
  // 3 header bytes, at most 1023 payload bytes and 3 CRC bytes.
  const RTCM3_MAX_FRAME := 1029

  datatype SplitResult = SplitResult(frames: seq<seq<byte>>, remainder: seq<byte>)

  // The 10-bit length field: the low two bits of the second byte, then the third byte.
  function LengthField(b1: byte, b2: byte): (n: nat)
    ensures n <= 1023
  {
    (b1 as int % 4) * 256 + b2 as int
  }

  function FrameSize(header: seq<byte>): nat
    requires |header| >= 3
  {
    LengthField(header[1], header[2]) + 6
  }

  // ---- the grammar ---------------------------------------------------------

  datatype Piece = Piece(junk: seq<byte>, frame: seq<byte>)

  predicate NoPreamble(s: seq<byte>) {
    forall i :: 0 <= i < |s| ==> s[i] != PREAMBLE
  }

  predicate IsFrame(s: seq<byte>) {
    |s| >= 6 && s[0] == PREAMBLE && |s| == FrameSize(s)
  }

  predicate IsIncomplete(s: seq<byte>) {
    s == [] || (s[0] == PREAMBLE && (|s| < 3 || |s| < FrameSize(s)))
  }

  function Assemble(pieces: seq<Piece>, tail: seq<byte>): seq<byte> {
    if pieces == [] then tail else pieces[0].junk + pieces[0].frame + Assemble(pieces[1..], tail)
  }

  function FramesOf(pieces: seq<Piece>): seq<seq<byte>> {
    seq(|pieces|, i requires 0 <= i < |pieces| => pieces[i].frame)
  }

  ghost predicate Parses(data: seq<byte>, pieces: seq<Piece>, junk: seq<byte>, remainder: seq<byte>) {
    && (forall i :: 0 <= i < |pieces| ==> NoPreamble(pieces[i].junk) && IsFrame(pieces[i].frame))
    && NoPreamble(junk)
    && IsIncomplete(remainder)
    && data == Assemble(pieces, junk + remainder)
  }

  // ---- one-shot splitting --------------------------------------------------

  function Split(data: seq<byte>): SplitResult {
    if data == [] then SplitResult([], [])
    else if data[0] != PREAMBLE then Split(data[1..])
    else if |data| < 3 || |data| < FrameSize(data) then SplitResult([], data)
    else
      var rest := Split(data[FrameSize(data)..]);
      SplitResult([data[..FrameSize(data)]] + rest.frames, rest.remainder)
  }

  lemma {:induction false} SplitSkipsJunk(junk: seq<byte>, s: seq<byte>)
    requires NoPreamble(junk)
    ensures Split(junk + s) == Split(s)
  {
    if junk == [] {
      assert junk + s == s;
    } else {
      assert (junk + s)[1..] == junk[1..] + s;
      SplitSkipsJunk(junk[1..], s);
    }
  }

  lemma SplitTakesFrame(frame: seq<byte>, s: seq<byte>)
    requires IsFrame(frame)
    ensures Split(frame + s) == SplitResult([frame] + Split(s).frames, Split(s).remainder)
  {
    var data := frame + s;
    assert data[1] == frame[1] && data[2] == frame[2];
    assert data[..FrameSize(data)] == frame && data[FrameSize(data)..] == s;
  }

  // Any way of reading the stream by the grammar is the way the splitter reads it.
  lemma {:induction false} SplitFollowsAnyParse(
      data: seq<byte>, pieces: seq<Piece>, junk: seq<byte>, remainder: seq<byte>)
    requires Parses(data, pieces, junk, remainder)
    ensures Split(data) == SplitResult(FramesOf(pieces), remainder)
    decreases |pieces|
  {
    if pieces == [] {
      SplitSkipsJunk(junk, remainder);
    } else {
      var p, rest := pieces[0], Assemble(pieces[1..], junk + remainder);
      SplitFollowsAnyParse(rest, pieces[1..], junk, remainder);
      assert data == p.junk + (p.frame + rest);
      SplitSkipsJunk(p.junk, p.frame + rest);
      SplitTakesFrame(p.frame, rest);
      assert FramesOf(pieces) == [p.frame] + FramesOf(pieces[1..]);
    }
  }

  lemma ParseAfterJunkByte(b: byte, data: seq<byte>, pieces: seq<Piece>, junk: seq<byte>, remainder: seq<byte>)
    returns (pieces': seq<Piece>, junk': seq<byte>)
    requires Parses(data, pieces, junk, remainder) && b != PREAMBLE
    ensures Parses([b] + data, pieces', junk', remainder) && FramesOf(pieces') == FramesOf(pieces)
  {
    if pieces == [] {
      pieces', junk' := [], [b] + junk;
      assert junk' + remainder == [b] + data;
    } else {
      pieces', junk' := [Piece([b] + pieces[0].junk, pieces[0].frame)] + pieces[1..], junk;
      assert pieces'[1..] == pieces[1..];
      assert [b] + data == pieces'[0].junk + pieces'[0].frame + Assemble(pieces[1..], junk + remainder);
    }
  }

  lemma ParseAfterFrame(frame: seq<byte>, data: seq<byte>, pieces: seq<Piece>, junk: seq<byte>, remainder: seq<byte>)
    requires Parses(data, pieces, junk, remainder) && IsFrame(frame)
    ensures Parses(frame + data, [Piece([], frame)] + pieces, junk, remainder)
    ensures FramesOf([Piece([], frame)] + pieces) == [frame] + FramesOf(pieces)
  {
    assert ([Piece([], frame)] + pieces)[1..] == pieces;
  }

  lemma ParseOfIncomplete(data: seq<byte>) returns (pieces: seq<Piece>, junk: seq<byte>)
    requires IsIncomplete(data)
    ensures Parses(data, pieces, junk, data) && FramesOf(pieces) == []
  {
    pieces, junk := [], [];
    assert junk + data == data;
  }

  // Every stream has such a reading.
  lemma {:induction false} ParseExists(data: seq<byte>) returns (pieces: seq<Piece>, junk: seq<byte>)
    ensures Parses(data, pieces, junk, Split(data).remainder)
    ensures FramesOf(pieces) == Split(data).frames
    decreases |data|
  {
    if data == [] {
      pieces, junk := [], [];
    } else if data[0] != PREAMBLE {
      pieces, junk := ParseExists(data[1..]);
      pieces, junk := ParseAfterJunkByte(data[0], data[1..], pieces, junk, Split(data).remainder);
      assert data == [data[0]] + data[1..];
    } else if |data| < 3 || |data| < FrameSize(data) {
      pieces, junk := ParseOfIncomplete(data);
    } else {
      var frame, rest := data[..FrameSize(data)], data[FrameSize(data)..];
      assert data == frame + rest;
      SplitTakesFrame(frame, rest);
      pieces, junk := ParseExists(rest);
      ParseAfterFrame(frame, rest, pieces, junk, Split(rest).remainder);
      pieces := [Piece([], frame)] + pieces;
    }
  }

  // The splitter computes exactly the (unique) parse of its input: nothing is lost but bytes
  // that lie before a preamble, nothing is invented, and the frames come in stream order.
  lemma SplitIsTheParse(data: seq<byte>, frames: seq<seq<byte>>, remainder: seq<byte>)
    ensures Split(data) == SplitResult(frames, remainder)
            <==> exists pieces, junk :: Parses(data, pieces, junk, remainder) && FramesOf(pieces) == frames
  {
    var ps, j := ParseExists(data);
    forall pieces, junk | Parses(data, pieces, junk, remainder) && FramesOf(pieces) == frames
      ensures Split(data) == SplitResult(frames, remainder)
    {
      SplitFollowsAnyParse(data, pieces, junk, remainder);
    }
  }

  // The remainder always fits under the discard limit, so the guard that drops long
  // remainders can only ever drop an empty one.
  lemma {:induction false} RemainderBelowLimit(data: seq<byte>)
    ensures IsIncomplete(Split(data).remainder)
    ensures |Split(data).remainder| < RTCM3_MAX_FRAME
  {
    var pieces, junk := ParseExists(data);
  }

  // ---- what a base station sends -------------------------------------------

  // Bytes without a preamble, then a payload framed with six reserved bits and a CRC.
  datatype Sending = Sending(junk: seq<byte>, reserved: byte, payload: seq<byte>, crc: seq<byte>)

  predicate Sendable(s: Sending) {
    NoPreamble(s.junk) && s.reserved < 64 && |s.payload| <= 1023 && |s.crc| == 3
  }

  function Framed(s: Sending): seq<byte>
    requires Sendable(s)
  {
    [PREAMBLE, (s.reserved as int * 4 + |s.payload| / 256) as byte, (|s.payload| % 256) as byte] + s.payload + s.crc
  }

  function Pieces(sent: seq<Sending>): seq<Piece>
    requires forall i :: 0 <= i < |sent| ==> Sendable(sent[i])
  {
    seq(|sent|, i requires 0 <= i < |sent| => Piece(sent[i].junk, Framed(sent[i])))
  }

  lemma FramedIsFrame(s: Sending)
    requires Sendable(s)
    ensures IsFrame(Framed(s))
  {
    var n := |s.payload|;
    assert (s.reserved as int * 4 + n / 256) % 4 == n / 256;
    assert LengthField(Framed(s)[1], Framed(s)[2]) == n;
  }

  // Whatever lies between them, every frame sent comes back, in order.
  lemma SentFramesComeBack(sent: seq<Sending>, junk: seq<byte>)
    requires forall i :: 0 <= i < |sent| ==> Sendable(sent[i])
    requires NoPreamble(junk)
    ensures Split(Assemble(Pieces(sent), junk)).remainder == []
    ensures Split(Assemble(Pieces(sent), junk)).frames == seq(|sent|, i requires 0 <= i < |sent| => Framed(sent[i]))
  {
    forall i | 0 <= i < |sent|
      ensures IsFrame(Pieces(sent)[i].frame)
    {
      FramedIsFrame(sent[i]);
    }
    assert junk + [] == junk;
    SplitFollowsAnyParse(Assemble(Pieces(sent), junk), Pieces(sent), junk, []);
  }

  // ---- splitting in chunks -------------------------------------------------

  // Splitting what was left over together with what arrives next is splitting the whole.
  lemma {:induction false} SplitIsIncremental(a: seq<byte>, b: seq<byte>)
    ensures Split(a + b) == Onward(Split(a), b)
    decreases |a|
  {
    if IsIncomplete(a) {
      IncompleteGoesOnward(a, b);
    } else if a[0] != PREAMBLE {
      assert (a + b)[1..] == a[1..] + b;
      SplitIsIncremental(a[1..], b);
    } else {
      var frame, rest := a[..FrameSize(a)], a[FrameSize(a)..];
      SplitIsIncremental(rest, b);
      FrameGoesOnward(frame, rest, b);
      assert a == frame + rest;
    }
  }

  // What a split becomes when more bytes arrive.
  function Onward(split: SplitResult, b: seq<byte>): SplitResult {
    var more := Split(split.remainder + b);
    SplitResult(split.frames + more.frames, more.remainder)
  }

  lemma IncompleteGoesOnward(a: seq<byte>, b: seq<byte>)
    requires IsIncomplete(a)
    ensures Split(a + b) == Onward(Split(a), b)
  {
    assert Split(a) == SplitResult([], a);
    assert [] + Split(a + b).frames == Split(a + b).frames;
  }

  lemma FrameGoesOnward(frame: seq<byte>, rest: seq<byte>, b: seq<byte>)
    requires IsFrame(frame) && Split(rest + b) == Onward(Split(rest), b)
    ensures Split(frame + rest + b) == Onward(Split(frame + rest), b)
  {
    ConcatAssociates(frame, rest, b);
    SplitTakesFrame(frame, rest + b);
    SplitTakesFrame(frame, rest);
    ConcatAssociates([frame], Split(rest).frames, Split(Split(rest).remainder + b).frames);
  }

  // bytes.find: the first preamble at or after `from`, or -1.
  method FindPreamble(data: seq<byte>, from: nat) returns (at: int)
    requires from <= |data|
    ensures at < 0 ==> NoPreamble(data[from..])
    ensures at >= 0 ==> from <= at < |data| && data[at] == PREAMBLE && NoPreamble(data[from..at])
  {
    at := from;
    while at < |data|
      invariant from <= at <= |data|
      invariant forall k :: from <= k < at ==> data[k] != PREAMBLE
    {
      if data[at] == PREAMBLE {
        return;
      }
      at := at + 1;
    }
    at := -1;
  }

  // The frames found so far and the split of the bytes from i on make up the whole split.
  ghost predicate SplitUpTo(data: seq<byte>, frames: seq<seq<byte>>, i: nat)
    requires i <= |data|
  {
    Split(data) == SplitResult(frames + Split(data[i..]).frames, Split(data[i..]).remainder)
  }

  lemma SplitSkipsTo(data: seq<byte>, frames: seq<seq<byte>>, i: nat, at: nat)
    requires i <= at <= |data| && NoPreamble(data[i..at]) && SplitUpTo(data, frames, i)
    ensures SplitUpTo(data, frames, at)
  {
    assert data[i..] == data[i..at] + data[at..];
    SplitSkipsJunk(data[i..at], data[at..]);
  }

  // The size of the frame whose header starts at i.
  function SizeAt(data: seq<byte>, i: nat): nat
    requires i + 3 <= |data|
  {
    LengthField(data[i + 1], data[i + 2]) + 6
  }

  lemma SplitTakesFrameAt(data: seq<byte>, frames: seq<seq<byte>>, i: nat)
    requires i + 3 <= |data| && data[i] == PREAMBLE && i + SizeAt(data, i) <= |data| && SplitUpTo(data, frames, i)
    ensures SplitUpTo(data, frames + [data[i..i + SizeAt(data, i)]], i + SizeAt(data, i))
  {
    var frame, rest := data[i..i + SizeAt(data, i)], data[i + SizeAt(data, i)..];
    assert data[i..] == frame + rest;
    SplitTakesFrame(frame, rest);
    ConcatAssociates(frames, [frame], Split(rest).frames);
  }

  lemma SplitEnds(data: seq<byte>, frames: seq<seq<byte>>, i: nat)
    requires i <= |data| && SplitUpTo(data, frames, i)
    requires i < |data| ==> data[i] == PREAMBLE
    requires i + 3 <= |data| ==> i + SizeAt(data, i) > |data|
    ensures Split(data) == SplitResult(frames, data[i..])
  {
    var rest := data[i..];
    assert IsIncomplete(rest);
    assert Split(rest) == SplitResult([], rest);
    assert frames + [] == frames;
  }

  lemma SplitEndsInJunk(data: seq<byte>, frames: seq<seq<byte>>, i: nat)
    requires i <= |data| && SplitUpTo(data, frames, i) && NoPreamble(data[i..])
    ensures Split(data) == SplitResult(frames, [])
  {
    assert data[i..|data|] == data[i..] && data[|data|..] == [];
    SplitSkipsTo(data, frames, i, |data|);
    SplitEnds(data, frames, |data|);
  }

  lemma SplitStarts(data: seq<byte>)
    ensures SplitUpTo(data, [], 0)
  {
    assert data[0..] == data && [] + Split(data).frames == Split(data).frames;
  }

  method SplitRtcmFrames(data: seq<byte>) returns (frames: seq<seq<byte>>, remainder: seq<byte>)
    ensures SplitResult(frames, remainder) == Split(data)
  {
    frames := [];
    var n, i := |data|, 0;
    SplitStarts(data);
    while i < n
      invariant 0 <= i <= n && SplitUpTo(data, frames, i)
    {
      var at := FindPreamble(data, i);
      if at < 0 {
        SplitEndsInJunk(data, frames, i);
        return frames, [];
      }
      SplitSkipsTo(data, frames, i, at);
      i := at;
      if i + 3 > n {
        break;
      }
      var length := LengthField(data[i + 1], data[i + 2]);
      var total := length + 6;
      if total > RTCM3_MAX_FRAME {
        assert false;  // a 10-bit length never exceeds the maximum: the skip branch is dead
      }
      if i + total > n {
        break;
      }
      SplitTakesFrameAt(data, frames, i);
      frames := frames + [data[i..i + total]];
      i := i + total;
    }
    SplitEnds(data, frames, i);
    remainder := data[i..];
  }

  // ---- the carry-over buffers ----------------------------------------------

  // Buffered bytes of a mountpoint, empty when it has no entry.
  function Held(pending: map<string, seq<byte>>, mountpoint: string): seq<byte> {
    if mountpoint in pending then pending[mountpoint] else []
  }

  datatype Event = Chunk(mountpoint: string, bytes: seq<byte>) | Dropped(mountpoint: string)

  datatype Feed = Feed(pending: map<string, seq<byte>>, log: seq<(string, seq<byte>)>)

  function Tagged(mountpoint: string, frames: seq<seq<byte>>): seq<(string, seq<byte>)> {
    seq(|frames|, i requires 0 <= i < |frames| => (mountpoint, frames[i]))
  }

  // One step of the buffers as the methods below perform it, logging every frame parsed.
  function Step(feed: Feed, e: Event): Feed {
    match e
    case Dropped(mp) => feed.(pending := feed.pending - {mp})
    case Chunk(mp, bytes) =>
      var split := Split(Held(feed.pending, mp) + bytes);
      var popped := feed.pending - {mp};
      Feed(
        if split.remainder != [] && |split.remainder| < RTCM3_MAX_FRAME then popped[mp := split.remainder] else popped,
        feed.log + Tagged(mp, split.frames))
  }

  function Run(events: seq<Event>): Feed {
    if events == [] then Feed(map[], []) else Step(Run(events[..|events| - 1]), events[|events| - 1])
  }

  class FrameBuffer {
    var pending: map<string, seq<byte>>
    ghost var log: seq<(string, seq<byte>)>  // every frame handed on for parsing

    constructor ()
      ensures Feed(pending, log) == Run([])
    {
      pending, log := map[], [];
    }

    // The buffering part of the quality observer: returns the frames to parse.
    method Observe(mountpoint: string, chunk: seq<byte>) returns (complete: seq<seq<byte>>)
      modifies this
      ensures complete == Split(old(Held(pending, mountpoint)) + chunk).frames
      ensures Held(pending, mountpoint) == Split(old(Held(pending, mountpoint)) + chunk).remainder
      ensures mountpoint in pending <==> Held(pending, mountpoint) != []
      ensures Feed(pending, log) == Step(old(Feed(pending, log)), Chunk(mountpoint, chunk))
    {
      var data := Held(pending, mountpoint) + chunk;
      pending := pending - {mountpoint};
      var remainder;
      complete, remainder := SplitRtcmFrames(data);
      RemainderBelowLimit(data);
      if remainder != [] && |remainder| < RTCM3_MAX_FRAME {
        pending := pending[mountpoint := remainder];
      }
      log := log + Tagged(mountpoint, complete);
    }

    // Closing or unregistering a mountpoint pops its buffer.
    method Drop(mountpoint: string)
      modifies this
      ensures Feed(pending, log) == Step(old(Feed(pending, log)), Dropped(mountpoint))
    {
      pending := pending - {mountpoint};
    }
  }

  // ---- whole runs over all mountpoints -------------------------------------

  // The frames one mountpoint got parsed, in order.
  function ParsedFor(log: seq<(string, seq<byte>)>, mountpoint: string): seq<seq<byte>> {
    if log == [] then []
    else
      var last := log[|log| - 1];
      ParsedFor(log[..|log| - 1], mountpoint) + (if last.0 == mountpoint then [last.1] else [])
  }

  // What a mountpoint alone sees of a run: the bytes of each finished feed (one that ended
  // with a drop) and the bytes of the feed still going on.
  datatype Story = Story(finished: seq<seq<byte>>, current: seq<byte>)

  function Told(story: Story, e: Event, mountpoint: string): Story {
    if e.mountpoint != mountpoint then story
    else match e
      case Chunk(_, bytes) => story.(current := story.current + bytes)
      case Dropped(_) => Story(story.finished + [story.current], [])
  }

  function StoryOf(events: seq<Event>, mountpoint: string): Story {
    if events == [] then Story([], [])
    else Told(StoryOf(events[..|events| - 1], mountpoint), events[|events| - 1], mountpoint)
  }

  function FramesOfFeeds(feeds: seq<seq<byte>>): seq<seq<byte>> {
    if feeds == [] then [] else FramesOfFeeds(feeds[..|feeds| - 1]) + Split(feeds[|feeds| - 1]).frames
  }

  lemma {:induction false} ParsedForTagged(
      log: seq<(string, seq<byte>)>, tag: string, frames: seq<seq<byte>>, mountpoint: string)
    ensures ParsedFor(log + Tagged(tag, frames), mountpoint)
            == ParsedFor(log, mountpoint) + (if tag == mountpoint then frames else [])
    decreases |frames|
  {
    if frames == [] {
      assert log + Tagged(tag, frames) == log;
    } else {
      var init := frames[..|frames| - 1];
      var whole := log + Tagged(tag, frames);
      assert whole[..|whole| - 1] == log + Tagged(tag, init);
      ParsedForTagged(log, tag, init, mountpoint);
      assert frames == init + [frames[|frames| - 1]];
    }
  }

  // The frames parsed and the buffer of a mountpoint are those of splitting its feeds whole.
  ghost predicate Matches(feed: Feed, story: Story, mountpoint: string) {
    && ParsedFor(feed.log, mountpoint) == FramesOfFeeds(story.finished) + Split(story.current).frames
    && Held(feed.pending, mountpoint) == Split(story.current).remainder
  }

  lemma HeldAfterChunk(feed: Feed, tag: string, bytes: seq<byte>, mountpoint: string)
    ensures Held(Step(feed, Chunk(tag, bytes)).pending, mountpoint) ==
            if tag == mountpoint then Split(Held(feed.pending, tag) + bytes).remainder
            else Held(feed.pending, mountpoint)
  {
    RemainderBelowLimit(Held(feed.pending, tag) + bytes);
  }

  lemma ParsedAfterChunk(feed: Feed, tag: string, bytes: seq<byte>, mountpoint: string)
    ensures ParsedFor(Step(feed, Chunk(tag, bytes)).log, mountpoint) ==
            ParsedFor(feed.log, mountpoint)
            + (if tag == mountpoint then Split(Held(feed.pending, tag) + bytes).frames else [])
  {
    ParsedForTagged(feed.log, tag, Split(Held(feed.pending, tag) + bytes).frames, mountpoint);
  }

  lemma ChunkKeepsMatch(feed: Feed, story: Story, bytes: seq<byte>, mountpoint: string)
    requires Matches(feed, story, mountpoint)
    ensures Matches(Step(feed, Chunk(mountpoint, bytes)), story.(current := story.current + bytes), mountpoint)
  {
    HeldAfterChunk(feed, mountpoint, bytes, mountpoint);
    ParsedAfterChunk(feed, mountpoint, bytes, mountpoint);
    SplitIsIncremental(story.current, bytes);
    ConcatAssociates(FramesOfFeeds(story.finished), Split(story.current).frames,
                     Split(Held(feed.pending, mountpoint) + bytes).frames);
  }

  lemma ConcatAssociates<T>(a: seq<T>, b: seq<T>, c: seq<T>)
    ensures a + b + c == a + (b + c)
  {
  }

  // However the streams are cut into chunks and interleaved, each mountpoint gets exactly the
  // frames that one split over each of its whole feeds yields, and its buffer is exactly the
  // remainder of one split over the current feed.
  lemma {:induction false} ChunkingIsInvisible(events: seq<Event>, mountpoint: string)
    ensures Matches(Run(events), StoryOf(events, mountpoint), mountpoint)
    decreases |events|
  {
    if events != [] {
      var init, last := events[..|events| - 1], events[|events| - 1];
      ChunkingIsInvisible(init, mountpoint);
      var story := StoryOf(init, mountpoint);
      match last {
        case Chunk(mp, bytes) =>
          if mp == mountpoint {
            ChunkKeepsMatch(Run(init), story, bytes, mountpoint);
          } else {
            HeldAfterChunk(Run(init), mp, bytes, mountpoint);
            ParsedAfterChunk(Run(init), mp, bytes, mountpoint);
          }
        case Dropped(mp) =>
          if mp == mountpoint {
            assert (story.finished + [story.current])[..|story.finished|] == story.finished;
          }
      }
    }
  }
}
