/** GNSS boot framing: an escaping encoder and a decoder fed in chunks of any size up to 512 bytes. */
module GnssFrames {
  import opened Words

  const MAX_CHUNK := 512
  const MAX_BODY := 508

  const MARK: byte := 0xaa
  const OPEN: byte := 0xf0
  const CLOSE: byte := 0x0f
  const ESCAPE: byte := 0xde
  const ESCAPED_MARK: byte := 0xdf
  const ESCAPED_ESCAPE: byte := 0xe0

  datatype Fault = CommandBounds | PayloadBounds | Discarded | LongChunk | BadEscape | BadDelimiter | ShortBody | Overflow
                 | ShortFrame | LengthMismatch | ChecksumMismatch | AckSize

  datatype Result<+T> = Ok(value: T) | Raise(fault: Fault)

  // ---------------------------------------------------------------- encoding

  function Sum(s: seq<byte>): nat {
    if s == [] then 0 else Sum(s[..|s| - 1]) + s[|s| - 1]
  }

  /** Replaces every occurrence of one byte, left to right, without rescanning the replacement. */
  function Replace(s: seq<byte>, b: byte, sub: seq<byte>): seq<byte> {
    if s == [] then [] else Replace(s[..|s| - 1], b, sub) + (if s[|s| - 1] == b then sub else [s[|s| - 1]])
  }

  predicate Encodable(command: int, payload: seq<byte>) {
    0 <= command <= 0xffff && 1 <= |payload| <= MAX_BODY - 6
  }

  /** Length, command, payload, checksum. */
  function Body(command: int, payload: seq<byte>): (body: seq<byte>)
    requires Encodable(command, payload)
    ensures |body| == |payload| + 6
  {
    var covered := HalfBytes(|payload| + 4) + HalfBytes(command) + payload;
    covered + HalfBytes(Sum(covered) % 0x1_0000)
  }

  function Frame(body: seq<byte>): seq<byte> {
    [MARK, OPEN] + Replace(Replace(body, ESCAPE, [ESCAPE, ESCAPED_ESCAPE]), MARK, [ESCAPE, ESCAPED_MARK]) + [MARK, CLOSE]
  }

  function EncodeFrame(command: int, payload: seq<byte>): Result<seq<byte>> {
    if !(0 <= command <= 0xffff) then Raise(CommandBounds)
    else if !(1 <= |payload| <= MAX_BODY - 6) then Raise(PayloadBounds)
    else Ok(Frame(Body(command, payload)))
  }

  /** One byte as the receiver must see it. */
  function EscapeByte(b: byte): seq<byte> {
    if b == ESCAPE then [ESCAPE, ESCAPED_ESCAPE] else if b == MARK then [ESCAPE, ESCAPED_MARK] else [b]
  }

  function EscapeAll(s: seq<byte>): seq<byte> {
    if s == [] then [] else EscapeAll(s[..|s| - 1]) + EscapeByte(s[|s| - 1])
  }

  lemma {:induction false} ReplaceAppend(s: seq<byte>, t: seq<byte>, b: byte, sub: seq<byte>)
    ensures Replace(s + t, b, sub) == Replace(s, b, sub) + Replace(t, b, sub)
    decreases |t|
  {
    if t == [] {
      assert s + t == s;
    } else {
      assert (s + t)[..|s + t| - 1] == s + t[..|t| - 1];
      ReplaceAppend(s, t[..|t| - 1], b, sub);
    }
  }

  lemma ReplaceOne(x: byte, b: byte, sub: seq<byte>)
    ensures Replace([x], b, sub) == if x == b then sub else [x]
  {
    assert [x][..0] == [];
    assert Replace([], b, sub) == [];
  }

  /** The two replacements, in that order, escape each byte on its own. */
  lemma {:induction false} ReplaceEscapes(s: seq<byte>)
    ensures Replace(Replace(s, ESCAPE, [ESCAPE, ESCAPED_ESCAPE]), MARK, [ESCAPE, ESCAPED_MARK]) == EscapeAll(s)
  {
    if s != [] {
      var init, last := s[..|s| - 1], s[|s| - 1];
      var tail: seq<byte> := if last == ESCAPE then [ESCAPE, ESCAPED_ESCAPE] else [last];
      ReplaceEscapes(init);
      ReplaceAppend(Replace(init, ESCAPE, [ESCAPE, ESCAPED_ESCAPE]), tail, MARK, [ESCAPE, ESCAPED_MARK]);
      if last == ESCAPE {
        assert [ESCAPE, ESCAPED_ESCAPE] == [ESCAPE] + [ESCAPED_ESCAPE];
        ReplaceAppend([ESCAPE], [ESCAPED_ESCAPE], MARK, [ESCAPE, ESCAPED_MARK]);
        ReplaceOne(ESCAPE, MARK, [ESCAPE, ESCAPED_MARK]);
        ReplaceOne(ESCAPED_ESCAPE, MARK, [ESCAPE, ESCAPED_MARK]);
      } else {
        ReplaceOne(last, MARK, [ESCAPE, ESCAPED_MARK]);
      }
    }
  }

  // ---------------------------------------------------------------- decoding

  datatype State = Search | Prefix | InBody | InEscape | Suffix

  datatype Decoder = Decoder(state: State, body: seq<byte>, failed: bool)

  const FRESH := Decoder(Search, [], false)

  /** A decoder amid a chunk: the frames completed so far, and the fault that stopped it. */
  datatype Progress = Progress(d: Decoder, frames: seq<seq<byte>>, fault: Option<Fault>)

  function Failing(p: Progress, fault: Fault): Progress {
    p.(d := p.d.(body := [], failed := true), fault := Some(fault))
  }

  function Bounded(p: Progress): Progress {
    if |p.d.body| > MAX_BODY then Failing(p, Overflow) else p
  }

  function Take(p: Progress, b: byte): Progress {
    if p.fault.Some? then p
    else
      match p.d.state
      case Search => if b == MARK then p.(d := p.d.(state := Prefix)) else p
      case Prefix =>
        if b == OPEN then p.(d := p.d.(state := InBody)) else if b != MARK then p.(d := p.d.(state := Search)) else p
      case InEscape =>
        if b != ESCAPED_MARK && b != ESCAPED_ESCAPE then Failing(p, BadEscape)
        else Bounded(p.(d := p.d.(state := InBody, body := p.d.body + [if b == ESCAPED_MARK then MARK else ESCAPE])))
      case Suffix =>
        if b != CLOSE then Failing(p, BadDelimiter)
        else if |p.d.body| < 7 then Failing(p, ShortBody)
        else p.(d := p.d.(state := Search, body := []), frames := p.frames + [p.d.body])
      case InBody =>
        if b == ESCAPE then Bounded(p.(d := p.d.(state := InEscape)))
        else if b == MARK then Bounded(p.(d := p.d.(state := Suffix)))
        else Bounded(p.(d := p.d.(body := p.d.body + [b])))
  }

  function TakeAll(p: Progress, s: seq<byte>): Progress {
    if s == [] then p else Take(TakeAll(p, s[..|s| - 1]), s[|s| - 1])
  }

  /** What one call of `feed` leaves and returns. */
  datatype Fed = Fed(d: Decoder, result: Result<seq<seq<byte>>>)

  function FeedChunk(d: Decoder, chunk: seq<byte>): Fed {
    if d.failed then Fed(d, Raise(Discarded))
    else if |chunk| > MAX_CHUNK then Fed(d.(body := [], failed := true), Raise(LongChunk))
    else
      var p := TakeAll(Progress(d, [], None), chunk);
      Fed(p.d, if p.fault.Some? then Raise(p.fault.value) else Ok(p.frames))
  }

  /** A caller that collects the frames of every chunk in turn. */
  function FeedAll(d: Decoder, chunks: seq<seq<byte>>): Fed {
    if chunks == [] then Fed(d, Ok([]))
    else
      var before := FeedAll(d, chunks[..|chunks| - 1]);
      if before.result.Raise? then before
      else
        var last := FeedChunk(before.d, chunks[|chunks| - 1]);
        Fed(last.d, if last.result.Raise? then last.result else Ok(before.result.value + last.result.value))
  }

  class BootFrameDecoder {
    var state: State
    var body: seq<byte>
    var failed: bool

    function Value(): Decoder
      reads this
    {
      Decoder(state, body, failed)
    }

    constructor ()
      ensures Value() == FRESH
    {
      state, body, failed := Search, [], false;
    }

    method Fail()
      modifies this
      ensures Value() == old(Value()).(body := [], failed := true)
    {
      body, failed := [], true;
    }

    method Feed(chunk: seq<byte>) returns (r: Result<seq<seq<byte>>>)
      modifies this
      ensures Fed(Value(), r) == FeedChunk(old(Value()), chunk)
    {
      if failed {
        return Raise(Discarded);
      }
      if |chunk| > MAX_CHUNK {
        Fail();
        return Raise(LongChunk);
      }
      var frames: seq<seq<byte>> := [];
      ghost var start := Progress(Value(), [], None);
      for i := 0 to |chunk|
        invariant TakeAll(start, chunk[..i]) == Progress(Value(), frames, None)
      {
        var fault;
        frames, fault := TakeByte(chunk[i], frames);
        assert chunk[..i + 1][..i] == chunk[..i];
        if fault.Some? {
          StuckAtFault(start, chunk, i + 1);
          return Raise(fault.value);
        }
      }
      assert chunk[..|chunk|] == chunk;
      return Ok(frames);
    }

    method TakeByte(b: byte, frames: seq<seq<byte>>) returns (more: seq<seq<byte>>, fault: Option<Fault>)
      modifies this
      ensures Progress(Value(), more, fault) == Take(Progress(old(Value()), frames, None), b)
    {
      more, fault := frames, None;
      if state == Search {
        if b == MARK {
          state := Prefix;
        }
        return;
      }
      if state == Prefix {
        if b == OPEN {
          state := InBody;
        } else if b != MARK {
          state := Search;
        }
        return;
      }
      if state == InEscape {
        if b != ESCAPED_MARK && b != ESCAPED_ESCAPE {
          Fail();
          return frames, Some(BadEscape);
        }
        body := body + [if b == ESCAPED_MARK then MARK else ESCAPE];
        state := InBody;
      } else if state == Suffix {
        if b != CLOSE {
          Fail();
          return frames, Some(BadDelimiter);
        }
        if |body| < 7 {
          Fail();
          return frames, Some(ShortBody);
        }
        more := frames + [body];
        body, state := [], Search;
      } else if b == ESCAPE {
        state := InEscape;
      } else if b == MARK {
        state := Suffix;
      } else {
        body := body + [b];
      }
      if |body| > MAX_BODY {
        Fail();
        fault := Some(Overflow);
      }
    }
  }

  // ---------------------------------------------------------------- chunks do not matter

  lemma {:induction false} TakeAppend(p: Progress, s: seq<byte>, t: seq<byte>)
    ensures TakeAll(p, s + t) == TakeAll(TakeAll(p, s), t)
    decreases |t|
  {
    hide Take;
    if t == [] {
      assert s + t == s;
    } else {
      assert (s + t)[..|s + t| - 1] == s + t[..|t| - 1];
      TakeAppend(p, s, t[..|t| - 1]);
    }
  }

  lemma TakeOne(p: Progress, b: byte)
    ensures TakeAll(p, [b]) == Take(p, b)
  {
    hide Take;
    assert [b][..0] == [];
    assert TakeAll(p, []) == p;
  }

  lemma {:induction false} StuckAtFault(p: Progress, s: seq<byte>, i: nat)
    requires i <= |s| && TakeAll(p, s[..i]).fault.Some?
    ensures TakeAll(p, s) == TakeAll(p, s[..i])
    decreases |s|
  {
    if i < |s| {
      assert s[..|s| - 1][..i] == s[..i];
      StuckAtFault(p, s[..|s| - 1], i);
    } else {
      assert s[..i] == s;
    }
  }

  function Flatten(chunks: seq<seq<byte>>): seq<byte> {
    if chunks == [] then [] else Flatten(chunks[..|chunks| - 1]) + chunks[|chunks| - 1]
  }

  /** Frames collected earlier do not influence what is decoded next. */
  lemma {:induction false} TakeShift(d: Decoder, before: seq<seq<byte>>, s: seq<byte>)
    ensures var p, q := TakeAll(Progress(d, [], None), s), TakeAll(Progress(d, before, None), s);
            q == p.(frames := before + p.frames)
  {
    if s != [] {
      TakeShift(d, before, s[..|s| - 1]);
    }
  }

  /** Feeding chunks within bounds is feeding their concatenation, byte by byte. */
  lemma {:induction false} ChunksIrrelevant(d: Decoder, chunks: seq<seq<byte>>)
    requires !d.failed && forall c | c in chunks :: |c| <= MAX_CHUNK
    requires TakeAll(Progress(d, [], None), Flatten(chunks)).fault.None?
    ensures var p := TakeAll(Progress(d, [], None), Flatten(chunks)); FeedAll(d, chunks) == Fed(p.d, Ok(p.frames)) && !p.d.failed
  {
    hide Take;
    if chunks != [] {
      var init, last := chunks[..|chunks| - 1], chunks[|chunks| - 1];
      var start := Progress(d, [], None);
      var whole := Flatten(chunks);
      assert whole[..|Flatten(init)|] == Flatten(init);
      if TakeAll(start, Flatten(init)).fault.Some? {
        StuckAtFault(start, whole, |Flatten(init)|);
      }
      ChunksIrrelevant(d, init);
      var p := TakeAll(start, Flatten(init));
      TakeAppend(start, Flatten(init), last);
      TakeShift(p.d, p.frames, last);
      NotFailed(p.d, last);
    }
  }

  lemma {:induction false} NotFailed(d: Decoder, s: seq<byte>)
    requires !d.failed
    ensures var p := TakeAll(Progress(d, [], None), s); p.d.failed <==> p.fault.Some?
  {
    if s != [] {
      NotFailed(d, s[..|s| - 1]);
    }
  }

  // ---------------------------------------------------------------- round trip

  lemma TakeEscapedByte(frames: seq<seq<byte>>, body: seq<byte>, b: byte)
    requires |body| < MAX_BODY
    ensures TakeAll(Progress(Decoder(InBody, body, false), frames, None), EscapeByte(b))
            == Progress(Decoder(InBody, body + [b], false), frames, None)
  {
    var p := Progress(Decoder(InBody, body, false), frames, None);
    if b == ESCAPE || b == MARK {
      var second := if b == ESCAPE then ESCAPED_ESCAPE else ESCAPED_MARK;
      assert EscapeByte(b) == [ESCAPE] + [second];
      TakeAppend(p, [ESCAPE], [second]);
      TakeOne(p, ESCAPE);
      TakeOne(Take(p, ESCAPE), second);
    } else {
      TakeOne(p, b);
    }
  }

  lemma {:induction false} TakeEscaped(frames: seq<seq<byte>>, s: seq<byte>)
    requires |s| <= MAX_BODY
    ensures TakeAll(Progress(Decoder(InBody, [], false), frames, None), EscapeAll(s))
            == Progress(Decoder(InBody, s, false), frames, None)
  {
    hide Take, EscapeByte;
    if s != [] {
      var init, last := s[..|s| - 1], s[|s| - 1];
      TakeEscaped(frames, init);
      TakeAppend(Progress(Decoder(InBody, [], false), frames, None), EscapeAll(init), EscapeByte(last));
      TakeEscapedByte(frames, init, last);
      assert init + [last] == s;
    }
  }

  /** A decoder between frames, perhaps after a stray mark, reads one whole frame. */
  lemma TakeFrame(state: State, frames: seq<seq<byte>>, body: seq<byte>)
    requires (state == Search || state == Prefix) && 7 <= |body| <= MAX_BODY
    ensures TakeAll(Progress(Decoder(state, [], false), frames, None), Frame(body)) == Progress(FRESH, frames + [body], None)
  {
    hide TakeAll, Replace;
    var p := Progress(Decoder(state, [], false), frames, None);
    ReplaceEscapes(body);
    assert Frame(body) == [MARK] + [OPEN] + EscapeAll(body) + [MARK] + [CLOSE];
    TakeAppend(p, [MARK] + [OPEN] + EscapeAll(body) + [MARK], [CLOSE]);
    TakeAppend(p, [MARK] + [OPEN] + EscapeAll(body), [MARK]);
    TakeAppend(p, [MARK] + [OPEN], EscapeAll(body));
    TakeAppend(p, [MARK], [OPEN]);
    TakeOne(p, MARK);
    TakeOne(Take(p, MARK), OPEN);
    TakeEscaped(frames, body);
    TakeOne(Progress(Decoder(InBody, body, false), frames, None), MARK);
    TakeOne(Progress(Decoder(Suffix, body, false), frames, None), CLOSE);
  }

  /** Noise in which no frame begins. */
  ghost predicate Quiet(noise: seq<byte>) {
    forall i | 0 <= i < |noise| - 1 :: noise[i] == MARK ==> noise[i + 1] != OPEN
  }

  lemma {:induction false} TakeNoise(frames: seq<seq<byte>>, noise: seq<byte>)
    requires Quiet(noise)
    ensures TakeAll(Progress(FRESH, frames, None), noise)
            == Progress(Decoder(if noise != [] && noise[|noise| - 1] == MARK then Prefix else Search, [], false), frames, None)
  {
    if noise != [] {
      TakeNoise(frames, noise[..|noise| - 1]);
    }
  }

  /** A frame and the noise before it. */
  datatype Item = Item(noise: seq<byte>, command: int, payload: seq<byte>)

  ghost predicate Sendable(item: Item) {
    Quiet(item.noise) && Encodable(item.command, item.payload)
  }

  ghost function Wire(items: seq<Item>): seq<byte>
    requires forall i | 0 <= i < |items| :: Sendable(items[i])
  {
    if items == [] then []
    else
      var last := items[|items| - 1];
      assert Sendable(last);
      Wire(items[..|items| - 1]) + last.noise + EncodeFrame(last.command, last.payload).value
  }

  ghost function Bodies(items: seq<Item>): seq<seq<byte>>
    requires forall i | 0 <= i < |items| :: Sendable(items[i])
  {
    if items == [] then []
    else
      var last := items[|items| - 1];
      assert Sendable(last);
      Bodies(items[..|items| - 1]) + [Body(last.command, last.payload)]
  }

  lemma {:induction false} TakeWire(items: seq<Item>)
    requires forall i | 0 <= i < |items| :: Sendable(items[i])
    ensures TakeAll(Progress(FRESH, [], None), Wire(items)) == Progress(FRESH, Bodies(items), None)
  {
    hide TakeAll, Frame, Body, Quiet;
    var p := Progress(FRESH, [], None);
    if items == [] {
      TakeNothing(p);
    } else {
      var init, last := items[..|items| - 1], items[|items| - 1];
      assert Sendable(last);
      TakeWire(init);
      var body := Body(last.command, last.payload);
      TakeAppend(p, Wire(init) + last.noise, Frame(body));
      TakeAppend(p, Wire(init), last.noise);
      TakeNoise(Bodies(init), last.noise);
      TakeFrame(TakeAll(Progress(FRESH, Bodies(init), None), last.noise).d.state, Bodies(init), body);
    }
  }

  lemma TakeNothing(p: Progress)
    ensures TakeAll(p, []) == p
  {}

  /** Any frames with quiet noise around them, cut into any chunks within bounds, decode to exactly their bodies. */
  lemma FramingRoundTrip(items: seq<Item>, tail: seq<byte>, chunks: seq<seq<byte>>)
    requires (forall i | 0 <= i < |items| :: Sendable(items[i])) && Quiet(tail)
    requires (forall c | c in chunks :: |c| <= MAX_CHUNK) && Flatten(chunks) == Wire(items) + tail
    ensures FeedAll(FRESH, chunks).result == Ok(Bodies(items)) && !FeedAll(FRESH, chunks).d.failed
  {
    hide TakeAll, Wire, Bodies, Flatten, FeedAll, Quiet;
    TakeWire(items);
    TakeAppend(Progress(FRESH, [], None), Wire(items), tail);
    TakeNoise(Bodies(items), tail);
    ChunksIrrelevant(FRESH, chunks);
  }

  // ---------------------------------------------------------------- what the decoder accepts

  /** A frame as it was found on the wire, and the noise before it. */
  datatype Found = Found(noise: seq<byte>, body: seq<byte>)

  ghost predicate Proper(f: Found) {
    Quiet(f.noise) && 7 <= |f.body| <= 508
  }

  ghost function Stream(found: seq<Found>): seq<byte> {
    if found == [] then [] else Stream(found[..|found| - 1]) + found[|found| - 1].noise + Frame(found[|found| - 1].body)
  }

  ghost function FoundBodies(found: seq<Found>): seq<seq<byte>> {
    if found == [] then [] else FoundBodies(found[..|found| - 1]) + [found[|found| - 1].body]
  }

  /** The unfinished end of the stream, given the noise up to and including a mark. */
  function Rest(noise: seq<byte>, d: Decoder): seq<byte> {
    match d.state
    case Search => noise
    case Prefix => noise
    case InBody => noise + [OPEN] + EscapeAll(d.body)
    case InEscape => noise + [OPEN] + EscapeAll(d.body) + [ESCAPE]
    case Suffix => noise + [OPEN] + EscapeAll(d.body) + [MARK]
  }

  /** The stream so far: proper frames between quiet noise, then an unfinished end. */
  ghost predicate Explains(s: seq<byte>, found: seq<Found>, noise: seq<byte>, p: Progress) {
    && s == Stream(found) + Rest(noise, p.d) && p.frames == FoundBodies(found) && (forall f | f in found :: Proper(f))
    && Quiet(noise) && |p.d.body| <= 508
    && (p.d.state == Search || p.d.state == Prefix ==> p.d.body == [])
    && (p.d.state == Search ==> noise == [] || noise[|noise| - 1] != MARK)
    && (p.d.state != Search ==> noise != [] && noise[|noise| - 1] == MARK)
  }

  lemma EscapeSnoc(body: seq<byte>, b: byte)
    ensures EscapeAll(body + [b]) == EscapeAll(body) + EscapeByte(b)
  {
    assert (body + [b])[..|body|] == body;
  }

  lemma QuietSnoc(noise: seq<byte>, b: byte)
    requires Quiet(noise) && (b != OPEN || noise == [] || noise[|noise| - 1] != MARK)
    ensures Quiet(noise + [b])
  {}

  lemma QuietPrefix(noise: seq<byte>)
    requires Quiet(noise) && noise != []
    ensures Quiet(noise[..|noise| - 1])
  {}

  lemma StreamSnoc(found: seq<Found>, f: Found)
    ensures Stream(found + [f]) == Stream(found) + f.noise + Frame(f.body) && FoundBodies(found + [f]) == FoundBodies(found) + [f.body]
  {
    hide Frame;
    assert (found + [f])[..|found|] == found;
  }

  /** A closing byte completes one more proper frame. */
  lemma ExplainClose(s: seq<byte>, found: seq<Found>, noise: seq<byte>, p: Progress) returns (more: seq<Found>)
    requires Explains(s, found, noise, p) && p.d.state == Suffix && p.fault.None? && |p.d.body| >= 7
    ensures Explains(s + [CLOSE], more, [], Take(p, CLOSE))
  {
    hide Stream, FoundBodies, Frame, EscapeAll, Quiet;
    var f := Found(noise[..|noise| - 1], p.d.body);
    more := found + [f];
    QuietPrefix(noise);
    QuietNothing();
    StreamSnoc(found, f);
    FrameParts(f.body);
    assert noise == f.noise + [MARK];
    Regroup(Stream(found), f.noise, EscapeAll(f.body));
    assert Stream(more) + [] == Stream(more);
  }

  lemma QuietNothing()
    ensures Quiet([])
  {}

  lemma FrameParts(body: seq<byte>)
    ensures Frame(body) == [MARK] + [OPEN] + EscapeAll(body) + [MARK] + [CLOSE]
  {
    hide Replace, EscapeAll;
    ReplaceEscapes(body);
  }

  lemma Regroup(stream: seq<byte>, noise: seq<byte>, escaped: seq<byte>)
    ensures stream + (noise + [MARK] + [OPEN] + escaped + [MARK]) + [CLOSE] == stream + noise + ([MARK] + [OPEN] + escaped + [MARK] + [CLOSE])
  {}

  /** A byte outside a frame only lengthens the noise, or opens a frame. */
  lemma ExplainNoise(s: seq<byte>, found: seq<Found>, noise: seq<byte>, p: Progress, b: byte) returns (longer: seq<byte>)
    requires Explains(s, found, noise, p) && (p.d.state == Search || p.d.state == Prefix) && p.fault.None?
    ensures Explains(s + [b], found, longer, Take(p, b))
  {
    hide Stream, FoundBodies;
    if p.d.state == Prefix && b == OPEN {
      longer := noise;
      assert EscapeAll([]) == [];
      assert Stream(found) + noise + [b] == Stream(found) + (noise + [OPEN] + []);
    } else {
      longer := noise + [b];
      QuietSnoc(noise, b);
      assert Stream(found) + noise + [b] == Stream(found) + (noise + [b]);
    }
  }

  /** A byte inside a frame lengthens its escaped body, or ends it. */
  lemma ExplainBody(s: seq<byte>, found: seq<Found>, noise: seq<byte>, p: Progress, b: byte)
    requires Explains(s, found, noise, p) && (p.d.state == InBody || p.d.state == InEscape) && p.fault.None? && Take(p, b).fault.None?
    ensures Explains(s + [b], found, noise, Take(p, b))
  {
    hide Stream, FoundBodies, EscapeAll, Quiet;
    var q := Take(p, b);
    if |q.d.body| > |p.d.body| {
      EscapeSnoc(p.d.body, q.d.body[|p.d.body|]);
    }
    assert s + [b] == Stream(found) + (Rest(noise, p.d) + [b]);
    assert Rest(noise, p.d) + [b] == Rest(noise, q.d);
  }

  lemma {:induction false} Explain(s: seq<byte>) returns (found: seq<Found>, noise: seq<byte>)
    requires TakeAll(Progress(FRESH, [], None), s).fault.None?
    ensures Explains(s, found, noise, TakeAll(Progress(FRESH, [], None), s))
  {
    hide Explains, Take, FoundBodies, Stream, Frame;
    if s == [] {
      found, noise := [], [];
      NothingExplained();
    } else {
      var init, last := s[..|s| - 1], s[|s| - 1];
      var p := TakeAll(Progress(FRESH, [], None), init);
      Unfaulted(p, last);
      found, noise := Explain(init);
      assert init + [last] == s;
      match p.d.state
      case Search => noise := ExplainNoise(init, found, noise, p, last);
      case Prefix => noise := ExplainNoise(init, found, noise, p, last);
      case InBody => ExplainBody(init, found, noise, p, last);
      case InEscape => ExplainBody(init, found, noise, p, last);
      case Suffix =>
        ClosedBy(p, last);
        found := ExplainClose(init, found, noise, p);
        noise := [];
    }
  }

  lemma NothingExplained()
    ensures Explains([], [], [], Progress(FRESH, [], None))
  {}

  lemma Unfaulted(p: Progress, b: byte)
    ensures p.fault.Some? ==> Take(p, b).fault.Some?
  {}

  lemma ClosedBy(p: Progress, b: byte)
    requires p.d.state == Suffix && p.fault.None? && Take(p, b).fault.None?
    ensures b == CLOSE && |p.d.body| >= 7
  {}

  lemma {:induction false} FedIsTaken(d: Decoder, chunks: seq<seq<byte>>)
    requires !d.failed && FeedAll(d, chunks).result.Ok?
    ensures TakeAll(Progress(d, [], None), Flatten(chunks)) == Progress(FeedAll(d, chunks).d, FeedAll(d, chunks).result.value, None)
    ensures !FeedAll(d, chunks).d.failed
  {
    hide Take;
    if chunks != [] {
      var init, last := chunks[..|chunks| - 1], chunks[|chunks| - 1];
      FedIsTaken(d, init);
      var p := TakeAll(Progress(d, [], None), Flatten(init));
      TakeAppend(Progress(d, [], None), Flatten(init), last);
      TakeShift(p.d, p.frames, last);
      NotFailed(p.d, last);
    }
  }

  /**
   * Whatever the decoder accepts, in whatever chunks, is quiet noise and proper frames, whose bodies (7 to 508 bytes) are
   * exactly what it emitted, in order, and an unfinished end.
   */
  lemma DecoderSound(chunks: seq<seq<byte>>) returns (found: seq<Found>, noise: seq<byte>)
    requires FeedAll(FRESH, chunks).result.Ok?
    ensures Flatten(chunks) == Stream(found) + Rest(noise, FeedAll(FRESH, chunks).d) && FeedAll(FRESH, chunks).result.value == FoundBodies(found)
    ensures (forall f | f in found :: Proper(f)) && Quiet(noise)
  {
    hide Take, TakeAll, FeedAll, Stream, FoundBodies, Proper, Quiet, Rest;
    FedIsTaken(FRESH, chunks);
    found, noise := Explain(Flatten(chunks));
  }

  // ---------------------------------------------------------------- the bytes of the transport

  /** The escapes, as bytes. */
  lemma EscapeIs(b: byte)
    ensures EscapeByte(b) == if b == 0xaa then [0xde, 0xdf] else if b == 0xde then [0xde, 0xe0] else [b]
  {}

  lemma {:induction false} PlainBytes(s: seq<byte>)
    requires forall i | 0 <= i < |s| :: s[i] != 0xaa && s[i] != 0xde
    ensures EscapeAll(s) == s
  {
    if s != [] {
      PlainBytes(s[..|s| - 1]);
    }
  }

  /** The vendor's version request. */
  lemma KnownRequest()
    ensures EncodeFrame(0xfe08, [0x18, 0x00]) == Ok([0xaa, 0xf0, 0x06, 0x00, 0x08, 0xfe, 0x18, 0x00, 0x24, 0x01, 0xaa, 0x0f])
  {
    hide Replace, EscapeAll;
    var covered: seq<byte> := [0x06, 0x00, 0x08, 0xfe, 0x18, 0x00];
    KnownSum(covered);
    assert HalfBytes(6) + HalfBytes(0xfe08) + [0x18, 0x00] == covered;
    var body := covered + [0x24, 0x01];
    assert Body(0xfe08, [0x18, 0x00]) == body;
    ReplaceEscapes(body);
    PlainBytes(body);
    assert Frame(body) == [0xaa, 0xf0] + body + [0xaa, 0x0f];
    assert [0xaa, 0xf0] + body + [0xaa, 0x0f] == [0xaa, 0xf0, 0x06, 0x00, 0x08, 0xfe, 0x18, 0x00, 0x24, 0x01, 0xaa, 0x0f];
  }

  lemma KnownSum(s: seq<byte>)
    requires s == [0x06, 0x00, 0x08, 0xfe, 0x18, 0x00]
    ensures Sum(s) == 0x124
  {
    assert s[..0] == [];
    SumStep(s, 0);
    SumStep(s, 1);
    SumStep(s, 2);
    SumStep(s, 3);
    SumStep(s, 4);
    SumStep(s, 5);
    assert s[..6] == s;
  }

  lemma SumStep(s: seq<byte>, i: nat)
    requires i < |s|
    ensures Sum(s[..i + 1]) == Sum(s[..i]) + s[i]
  {
    assert s[..i + 1][..i] == s[..i];
  }
}
