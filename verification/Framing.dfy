/** Cutting a byte stream into frames, on the broker's side (src/sock-adap.cc and the
    read loop of src/sock-poll.cc) and on the client's (src/cli.cc). */
module Framing {
  type byte = bv8

  const HEADER_SIZE := 8

  datatype Header = NotCaps | Length(n: nat)

  /** What the framers ask of Caps and of their consumer: the length announced by the
      first eight bytes of a frame, and whether the frame that comes after k others is
      accepted. */
  datatype Decoder = Decoder(header: seq<byte> -> Header, accepts: (nat, seq<byte>) -> bool)

  /** A frame is at least as long as its header. */
  ghost predicate Sane(d: Decoder) {
    forall b: seq<byte> | d.header(b).Length? :: d.header(b).n >= HEADER_SIZE
  }

  /** The frames at the front of a stream, what is left, and whether what is left
      starts with something that can never be delivered. */
  datatype Cut = Cut(frames: seq<seq<byte>>, rest: seq<byte>, bad: bool)

  ghost function Split(d: Decoder, k: nat, s: seq<byte>): Cut
    requires Sane(d)
    decreases |s|
  {
    if |s| < HEADER_SIZE then Cut([], s, false)
    else match d.header(s[..HEADER_SIZE])
      case NotCaps => Cut([], s, true)
      case Length(n) =>
        if n > |s| then Cut([], s, false)
        else if !d.accepts(k, s[..n]) then Cut([], s, true)
        else
          Cons(s[..n], Split(d, k + 1, s[n..]))
  }

  function Cons(f: seq<byte>, c: Cut): Cut { c.(frames := [f] + c.frames) }

  /** What comes of two cuts, the second of what the first left over. */
  function Join(c: Cut, e: Cut): Cut { e.(frames := c.frames + e.frames) }

  /** The next frame is known to be longer than a buffer. */
  predicate Oversize(d: Decoder, s: seq<byte>, size: nat) {
    |s| >= HEADER_SIZE && d.header(s[..HEADER_SIZE]).Length? && d.header(s[..HEADER_SIZE]).n > size
  }

  function Concat(fs: seq<seq<byte>>): seq<byte> {
    if fs == [] then [] else fs[0] + Concat(fs[1..])
  }

  /** Nothing is lost or invented: frames and rest are the stream. */
  lemma {:induction false} SplitWhole(d: Decoder, k: nat, s: seq<byte>)
    requires Sane(d)
    ensures Concat(Split(d, k, s).frames) + Split(d, k, s).rest == s
    decreases |s|
  {
    if |s| >= HEADER_SIZE {
      match d.header(s[..HEADER_SIZE])
      case NotCaps =>
      case Length(n) =>
        if n <= |s| && d.accepts(k, s[..n]) {
          SplitWhole(d, k + 1, s[n..]);
          var c := Split(d, k + 1, s[n..]);
          assert Split(d, k, s).frames[1..] == c.frames;
          assert s == s[..n] + s[n..];
        }
    }
  }

  /** The stream starts with a complete, acceptable frame of length n. */
  ghost predicate Starts(d: Decoder, k: nat, s: seq<byte>, n: nat) {
    HEADER_SIZE <= |s| && d.header(s[..HEADER_SIZE]) == Length(n) && n <= |s| && d.accepts(k, s[..n])
  }

  lemma StartsMore(d: Decoder, k: nat, s: seq<byte>, n: nat, more: seq<byte>)
    requires Sane(d) && Starts(d, k, s, n)
    ensures Starts(d, k, s + more, n) && n >= HEADER_SIZE
    ensures (s + more)[..n] == s[..n] && (s + more)[n..] == s[n..] + more
  {
    assert (s + more)[..HEADER_SIZE] == s[..HEADER_SIZE] && (s + more)[..n] == s[..n];
    assert d.header(s[..HEADER_SIZE]).Length?;
  }

  lemma SplitCons(d: Decoder, k: nat, s: seq<byte>, n: nat)
    requires Sane(d) && Starts(d, k, s, n)
    ensures n >= HEADER_SIZE && Split(d, k, s) == Cons(s[..n], Split(d, k + 1, s[n..]))
  {}

  lemma JoinCons(f: seq<byte>, c: Cut, e: Cut)
    ensures Join(Cons(f, c), e) == Cons(f, Join(c, e))
  {}

  lemma JoinNothing(s: seq<byte>, e: Cut)
    ensures Join(Cut([], s, false), e) == e
  {}

  /** A split that goes on has found nothing yet or a frame. */
  lemma Cases(d: Decoder, k: nat, s: seq<byte>) returns (n: nat)
    requires Sane(d) && !Split(d, k, s).bad
    ensures Split(d, k, s) == Cut([], s, false) || Starts(d, k, s, n)
  {
    n := if |s| >= HEADER_SIZE && d.header(s[..HEADER_SIZE]).Length? then d.header(s[..HEADER_SIZE]).n else 0;
  }

  /** Splitting resumes where it stopped: reading more bytes later gives the same
      frames as having had them at once. */
  lemma {:induction false} SplitResumes(d: Decoder, k: nat, s: seq<byte>, more: seq<byte>)
    requires Sane(d) && !Split(d, k, s).bad
    ensures var c := Split(d, k, s);
            Split(d, k, s + more) == Join(c, Split(d, k + |c.frames|, c.rest + more))
    decreases |s|
  {
    var n := Cases(d, k, s);
    if Starts(d, k, s, n) {
      SplitCons(d, k, s, n);
      StartsMore(d, k, s, n, more);
      SplitCons(d, k, s + more, n);
      SplitResumes(d, k + 1, s[n..], more);
      var c := Split(d, k + 1, s[n..]);
      JoinCons(s[..n], c, Split(d, k + 1 + |c.frames|, c.rest + more));
    } else {
      JoinNothing(s, Split(d, k, s + more));
    }
  }

  /** A frame as a sender writes it. */
  predicate IsFrame(d: Decoder, k: nat, f: seq<byte>) {
    |f| >= HEADER_SIZE && d.header(f[..HEADER_SIZE]) == Length(|f|) && d.accepts(k, f)
  }

  /** The stream of a sequence of frames is cut into exactly those frames. */
  lemma {:induction false} SplitConcat(d: Decoder, k: nat, fs: seq<seq<byte>>)
    requires Sane(d) && forall i | 0 <= i < |fs| :: IsFrame(d, k + i, fs[i])
    ensures Split(d, k, Concat(fs)) == Cut(fs, [], false)
    decreases |fs|
  {
    if fs != [] {
      var s := Concat(fs);
      assert IsFrame(d, k + 0, fs[0]);
      assert s[..HEADER_SIZE] == fs[0][..HEADER_SIZE] && s[..|fs[0]|] == fs[0] && s[|fs[0]|..] == Concat(fs[1..]);
      forall i | 0 <= i < |fs[1..]| ensures IsFrame(d, k + 1 + i, fs[1..][i]) {
        assert IsFrame(d, k + (1 + i), fs[1 + i]);
      }
      SplitConcat(d, k + 1, fs[1..]);
    }
  }

  /** What can never be delivered stays so, whatever follows. */
  lemma {:induction false} BadStays(d: Decoder, k: nat, s: seq<byte>, more: seq<byte>)
    requires Sane(d) && Split(d, k, s).bad
    ensures Split(d, k, s + more).bad && Split(d, k, s + more).frames == Split(d, k, s).frames
    decreases |s|
  {
    var n := if d.header(s[..HEADER_SIZE]).Length? then d.header(s[..HEADER_SIZE]).n else 0;
    assert (s + more)[..HEADER_SIZE] == s[..HEADER_SIZE];
    if Starts(d, k, s, n) {
      SplitCons(d, k, s, n);
      StartsMore(d, k, s, n, more);
      SplitCons(d, k, s + more, n);
      BadStays(d, k + 1, s[n..], more);
    } else {
      assert d.header(s[..HEADER_SIZE]).Length? ==> (s + more)[..n] == s[..n];
    }
  }

  lemma PrefixNotBad(d: Decoder, fs: seq<seq<byte>>, s: seq<byte>, more: seq<byte>)
    requires Sane(d) && Split(d, 0, s + more) == Cut(fs, [], false)
    ensures !Split(d, 0, s).bad
  {
    if Split(d, 0, s).bad {
      BadStays(d, 0, s, more);
      assert false;
    }
  }

  lemma PrefixJoins(d: Decoder, fs: seq<seq<byte>>, s: seq<byte>, more: seq<byte>)
    requires Sane(d) && Split(d, 0, s + more) == Cut(fs, [], false)
    ensures var c := Split(d, 0, s);
            !c.bad && Cut(fs, [], false) == Join(c, Split(d, |c.frames|, c.rest + more))
  {
    PrefixNotBad(d, fs, s, more);
    SplitResumes(d, 0, s, more);
  }

  /** Any part of a stream of frames gives the frames it completes, in order, and the
      next frame is never taken for one that is too long; the whole gives them all. */
  lemma PrefixFrames(d: Decoder, fs: seq<seq<byte>>, s: seq<byte>, size: nat)
    requires Sane(d) && s <= Concat(fs) && forall i | 0 <= i < |fs| :: IsFrame(d, i, fs[i]) && |fs[i]| <= size
    ensures var c := Split(d, 0, s); !c.bad && c.frames <= fs && !Oversize(d, c.rest, size)
    ensures s == Concat(fs) ==> Split(d, 0, s) == Cut(fs, [], false)
  {
    var more := Concat(fs)[|s|..];
    assert s + more == Concat(fs);
    SplitConcat(d, 0, fs);
    PrefixJoins(d, fs, s, more);
    RestFits(d, fs, Split(d, 0, s), more, size);
  }

  lemma RestFits(d: Decoder, fs: seq<seq<byte>>, c: Cut, more: seq<byte>, size: nat)
    requires Sane(d) && forall i | 0 <= i < |fs| :: |fs[i]| <= size
    requires Cut(fs, [], false) == Join(c, Split(d, |c.frames|, c.rest + more))
    ensures c.frames <= fs && !Oversize(d, c.rest, size)
  {
    var e := Split(d, |c.frames|, c.rest + more);
    assert fs == c.frames + e.frames;
    if |c.rest| >= HEADER_SIZE {
      NextIsLong(d, |c.frames|, c.rest, more);
      assert fs[|c.frames|] == e.frames[0];
    }
  }

  lemma NextIsLong(d: Decoder, k: nat, s: seq<byte>, more: seq<byte>)
    requires Sane(d) && |s| >= HEADER_SIZE && Split(d, k, s + more).rest == [] && !Split(d, k, s + more).bad
    ensures var e := Split(d, k, s + more);
            e.frames != [] && d.header(s[..HEADER_SIZE]) == Length(|e.frames[0]|)
  {
    assert (s + more)[..HEADER_SIZE] == s[..HEADER_SIZE];
    var n := Cases(d, k, s + more);
    if Starts(d, k, s + more, n) { SplitCons(d, k, s + more, n); }
  }

  lemma Glue(a: seq<byte>, b: seq<byte>, c: seq<byte>)
    requires |c| == |a| + |b| && (forall i | 0 <= i < |a| :: c[i] == a[i]) && forall i | 0 <= i < |b| :: c[|a| + i] == b[i]
    ensures c == a + b
  {}

  /** What read(2) does: the bytes appear behind the first at ones. */
  method CopyInto(b: array<byte>, at: nat, chunk: seq<byte>)
    requires at + |chunk| <= b.Length
    modifies b
    ensures b[..at + |chunk|] == old(b[..at]) + chunk
  {
    var i := 0;
    while i < |chunk|
      invariant 0 <= i <= |chunk|
      invariant forall j | 0 <= j < at :: b[j] == old(b[j])
      invariant forall j | 0 <= j < i :: b[at + j] == chunk[j]
    {
      b[at + i] := chunk[i];
      i := i + 1;
    }
    Glue(old(b[..at]), chunk, b[..at + |chunk|]);
  }

  /** What memmove does: n bytes move to the front, which they may overlap. */
  method MoveToFront(b: array<byte>, from: nat, n: nat)
    requires from + n <= b.Length
    modifies b
    ensures b[..n] == old(b[from..from + n])
  {
    ghost var src := b[from..from + n];
    var i := 0;
    while i < n
      invariant 0 <= i <= n
      invariant forall j | 0 <= j < i :: b[j] == src[j]
      invariant forall j | from + i <= j < from + n :: b[j] == src[j - from]
    {
      b[i] := b[from + i];
      i := i + 1;
    }
  }

  // ---- the broker's side ----

  datatype Status = Success | Closed | NoMore | Proto | NoBuf | Refused

  class SocketAdapter {
    const decoder: Decoder
    var buffer: array<byte>
    var open: bool
    var curSize: nat
    var frameBegin: nat
    var delivered: seq<seq<byte>> // frames put on the dispatcher's queue
    ghost var stream: seq<byte>   // all bytes read from the socket

    ghost predicate Valid()
      reads this, buffer
    {
      && Sane(decoder) && HEADER_SIZE <= buffer.Length
      && frameBegin <= curSize <= buffer.Length
    }

    ghost function Pending(): seq<byte>
      requires frameBegin <= curSize <= buffer.Length
      reads this, buffer
    {
      buffer[frameBegin..curSize]
    }

    constructor (size: nat, decoder: Decoder)
      requires HEADER_SIZE <= size && Sane(decoder)
      ensures Valid() && open && Idle() && delivered == [] && stream == [] && fresh(buffer)
      ensures buffer.Length == size && this.decoder == decoder && frameBegin == curSize == 0
    {
      this.decoder := decoder;
      buffer := new byte[size];
      open, curSize, frameBegin, delivered, stream := true, 0, 0, [], [];
    }

    /** Appends what the socket delivers: between one byte and the free space; nothing
        at all means that the peer is gone. */
    method Read(chunk: seq<byte>) returns (r: Status)
      requires Valid() && |chunk| <= buffer.Length - curSize
      modifies this`curSize, buffer
      ensures Valid()
      ensures r == if open && chunk != [] then Success else Closed
      ensures Pending() == if r == Success then old(Pending()) + chunk else old(Pending())
      ensures frameBegin == old(frameBegin)
    {
      if !open || chunk == [] { return Closed; }
      CopyInto(buffer, curSize, chunk);
      curSize := curSize + |chunk|;
      assert buffer[frameBegin..curSize] == buffer[..curSize][frameBegin..];
      return Success;
    }

    /** Moves the unread bytes to the front of the buffer. */
    method Compact()
      requires Valid()
      modifies this`curSize, this`frameBegin, buffer
      ensures Valid() && Pending() == old(Pending()) && frameBegin == 0
    {
      var sz := curSize - frameBegin;
      if frameBegin < curSize { MoveToFront(buffer, frameBegin, sz); }
      frameBegin, curSize := 0, sz;
    }

    /** Everything complete was delivered and there is room to read more. */
    ghost predicate Idle()
      requires Valid()
      reads this, buffer
    {
      && Split(decoder, 0, stream) == Cut(delivered, Pending(), false)
      && !Oversize(decoder, Pending(), buffer.Length)
      && frameBegin == 0 && curSize < buffer.Length
    }

    method NextFrame() returns (r: Status, frame: seq<byte>)
      requires Valid()
      modifies this`curSize, this`frameBegin, buffer
      ensures Valid()
      ensures r == NextStatus(open, decoder, old(Pending()), buffer.Length)
      ensures r == Success ==> frame + Pending() == old(Pending()) && HEADER_SIZE <= |frame| &&
                               decoder.header(old(Pending())[..HEADER_SIZE]) == Length(|frame|)
      ensures r != Success ==> Pending() == old(Pending())
      ensures r == NoMore ==> frameBegin == 0 && curSize < buffer.Length
    {
      frame := [];
      if !open { return Closed, frame; }
      var sz := curSize - frameBegin;
      if sz < HEADER_SIZE {
        Compact();
        return NoMore, frame;
      }
      ghost var pending := Pending();
      var head := buffer[frameBegin..frameBegin + HEADER_SIZE];
      assert head == pending[..HEADER_SIZE];
      match decoder.header(head)
      case NotCaps => return Proto, frame;
      case Length(n) =>
        if n > buffer.Length { return NoBuf, frame; }
        if n > sz {
          Compact();
          return NoMore, frame;
        }
        frame := buffer[frameBegin..frameBegin + n];
        assert frame + buffer[frameBegin + n..curSize] == pending;
        frameBegin := frameBegin + n;
        return Success, frame;
    }

    /** Everything that arrived in one read: frames go to the dispatcher until no
        complete one is left, one is refused, or one can never be completed. The dispatcher's
        thread may close the adapter before the k-th look for a frame, as closes says;
        then a part of the frames was delivered, in order, and no more is. */
    method DoRead(chunk: seq<byte>, closes: nat -> bool) returns (ok: bool)
      requires Valid() && Idle() && |chunk| <= buffer.Length - curSize
      modifies this, buffer
      ensures Valid() && buffer == old(buffer) && (open ==> old(open)) && ((forall k :: !closes(k)) ==> open == old(open))
      ensures stream == if old(open) then old(stream) + chunk else old(stream)
      ensures old(delivered) <= delivered <= Split(decoder, 0, stream).frames
      ensures open == old(open) ==> delivered == Split(decoder, 0, stream).frames
      ensures ok <==> open && chunk != [] && !Split(decoder, 0, stream).bad
                      && !Oversize(decoder, Split(decoder, 0, stream).rest, buffer.Length)
      ensures ok ==> Idle()
    {
      var r := Read(chunk);
      if r != Success {
        assert stream + [] == stream;
        return false;
      }
      SplitResumes(decoder, 0, stream, chunk);
      stream := stream + chunk;
      ok := PutFrames(closes);
    }

    /** The loop that takes frames out of the buffer. */
    method PutFrames(closes: nat -> bool) returns (ok: bool)
      requires Valid() && open && Resumes(decoder, stream, delivered, Pending())
      modifies this`open, this`curSize, this`frameBegin, this`delivered, buffer
      ensures Valid() && ((forall k :: !closes(k)) ==> open)
      ensures old(delivered) <= delivered <= Split(decoder, 0, stream).frames
      ensures open ==> delivered == Split(decoder, 0, stream).frames
      ensures ok <==> open && !Split(decoder, 0, stream).bad
                      && !Oversize(decoder, Split(decoder, 0, stream).rest, buffer.Length)
      ensures ok ==> Idle()
    {
      var looks := 0;
      while true
        invariant Valid() && open && old(delivered) <= delivered
        invariant Resumes(decoder, stream, delivered, Pending())
        decreases curSize - frameBegin
      {
        if closes(looks) {
          open := false;
        }
        looks := looks + 1;
        ghost var s := Pending();
        var r, frame := NextFrame();
        if r == Success {
          if !decoder.accepts(|delivered|, frame) {
            Stops(decoder, stream, delivered, s, buffer.Length);
            return false;
          }
          Delivers(decoder, stream, delivered, frame, Pending());
          delivered := delivered + [frame];
        } else {
          if open { Stops(decoder, stream, delivered, s, buffer.Length); }
          return r == NoMore;
        }
      }
    }
  }

  function NextStatus(open: bool, d: Decoder, s: seq<byte>, size: nat): Status {
    if !open then Closed
    else if |s| < HEADER_SIZE then NoMore
    else if d.header(s[..HEADER_SIZE]) == NotCaps then Proto
    else if d.header(s[..HEADER_SIZE]).n > size then NoBuf
    else if d.header(s[..HEADER_SIZE]).n > |s| then NoMore
    else Success
  }

  /** The split of the stream is what was delivered, then the split of the buffer. */
  ghost predicate Resumes(d: Decoder, stream: seq<byte>, delivered: seq<seq<byte>>, pending: seq<byte>)
    requires Sane(d)
  {
    Split(d, 0, stream) == Join(Cut(delivered, [], false), Split(d, |delivered|, pending))
  }

  lemma Delivers(d: Decoder, stream: seq<byte>, delivered: seq<seq<byte>>, f: seq<byte>, rest: seq<byte>)
    requires Sane(d) && Resumes(d, stream, delivered, f + rest)
    requires HEADER_SIZE <= |f| && d.header((f + rest)[..HEADER_SIZE]) == Length(|f|) && d.accepts(|delivered|, f)
    ensures Resumes(d, stream, delivered + [f], rest)
  {}

  /** Why the loop ends, in terms of the whole stream. */
  lemma Stops(d: Decoder, stream: seq<byte>, delivered: seq<seq<byte>>, s: seq<byte>, size: nat)
    requires Sane(d) && Resumes(d, stream, delivered, s) && |s| <= size
    ensures var r := NextStatus(true, d, s, size); var c := Split(d, 0, stream);
            && (r != Success || !d.accepts(|delivered|, s[..d.header(s[..HEADER_SIZE]).n]) ==>
                  c.frames == delivered && c.rest == s && (c.bad <==> r == Proto || r == Success))
            && (r == NoMore ==> !Oversize(d, s, size)) && (r == NoBuf ==> Oversize(d, s, size))
  {}

  lemma SliceOfSlice(b: seq<byte>, off: nat, size: nat, n: nat)
    requires off + n <= size <= |b|
    ensures b[off..size][..n] == b[off..off + n] && b[off..size] == b[off..off + n] + b[off + n..size]
  {}

  /** The frame at an offset of a buffer is delivered. */
  lemma DeliversAt(d: Decoder, stream: seq<byte>, delivered: seq<seq<byte>>, b: seq<byte>, off: nat, size: nat, n: nat)
    requires Sane(d) && off + HEADER_SIZE <= size <= |b| && Resumes(d, stream, delivered, b[off..size])
    requires d.header(b[off..off + HEADER_SIZE]) == Length(n) && off + n <= size && d.accepts(|delivered|, b[off..off + n])
    ensures Resumes(d, stream, delivered + [b[off..off + n]], b[off + n..size]) && n >= HEADER_SIZE
  {
    assert d.header(b[off..off + HEADER_SIZE]).Length?;
    SliceOfSlice(b, off, size, HEADER_SIZE);
    SliceOfSlice(b, off, size, n);
    Delivers(d, stream, delivered, b[off..off + n], b[off + n..size]);
  }

  /** At an offset where no frame can be delivered everything before it was. */
  lemma StopsAt(d: Decoder, stream: seq<byte>, delivered: seq<seq<byte>>, b: seq<byte>, off: nat, size: nat)
    requires Sane(d) && off <= size <= |b| && Resumes(d, stream, delivered, b[off..size])
    ensures var c := Split(d, 0, stream);
            if size - off < HEADER_SIZE then c == Cut(delivered, b[off..size], false)
            else match d.header(b[off..off + HEADER_SIZE])
              case NotCaps => c == Cut(delivered, b[off..size], true)
              case Length(n) =>
                if off + n > size then c == Cut(delivered, b[off..size], false)
                else !d.accepts(|delivered|, b[off..off + n]) ==> c == Cut(delivered, b[off..size], true)
  {
    Stops(d, stream, delivered, b[off..size], size);
    if size - off >= HEADER_SIZE {
      SliceOfSlice(b, off, size, HEADER_SIZE);
      var h := d.header(b[off..off + HEADER_SIZE]);
      if h.Length? && off + h.n <= size { SliceOfSlice(b, off, size, h.n); }
    }
  }

  /** How many bytes a read gets: at least one, no more than there is room for or left. */
  function Chunk(wish: nat, room: nat, left: nat): (n: nat)
    requires room > 0 && left > 0
    ensures 1 <= n <= room && n <= left
  {
    var most := if room < left then room else left;
    if wish < 1 then 1 else if wish > most then most else wish
  }

  /** The stream of any sequence of frames that fit the buffer, in reads of whatever size
      the socket gives: every read succeeds, and exactly those frames are delivered. */
  method ReadStream(a: SocketAdapter, fs: seq<seq<byte>>, sizes: nat -> nat) returns (ok: bool)
    requires a.Valid() && a.Idle() && a.open && a.stream == []
    requires forall i | 0 <= i < |fs| :: IsFrame(a.decoder, i, fs[i]) && |fs[i]| <= a.buffer.Length
    modifies a, a.buffer
    ensures ok && a.delivered == fs
  {
    var s := Concat(fs);
    var off, turns := 0, 0;
    while off < |s|
      invariant 0 <= off <= |s| && a.buffer == old(a.buffer) && a.Valid() && a.Idle() && a.open && a.stream == s[..off]
      decreases |s| - off
    {
      var n := Chunk(sizes(turns), a.buffer.Length - a.curSize, |s| - off);
      assert s[..off] + s[off..off + n] == s[..off + n];
      PrefixFrames(a.decoder, fs, s[..off + n], a.buffer.Length);
      ok := a.DoRead(s[off..off + n], k => false);
      if !ok { return; }
      off, turns := off + n, turns + 1;
    }
    assert s[..off] == s;
    PrefixFrames(a.decoder, fs, s, a.buffer.Length);
    return true;
  }

  // ---- the client's side ----

  datatype Received = More | InsufficientBuffer | Failed

  class ReceiveBuffer {
    const decoder: Decoder
    var rbuffer: array<byte>
    var rbufOff: nat
    var delivered: seq<seq<byte>> // frames passed to the command handler
    ghost var stream: seq<byte>   // all bytes received

    ghost predicate Valid()
      reads this, rbuffer
    {
      Sane(decoder) && HEADER_SIZE <= rbuffer.Length && rbufOff <= rbuffer.Length
    }

    /** Between two reads everything complete was delivered. */
    ghost predicate Idle()
      requires Valid()
      reads this, rbuffer
    {
      Split(decoder, 0, stream) == Cut(delivered, rbuffer[..rbufOff], false)
    }

    constructor (size: nat, decoder: Decoder)
      requires HEADER_SIZE <= size && Sane(decoder)
      ensures Valid() && Idle() && delivered == [] && stream == [] && rbufOff == 0
      ensures rbuffer.Length == size && this.decoder == decoder && fresh(rbuffer)
    {
      this.decoder := decoder;
      rbuffer := new byte[size];
      rbufOff, delivered, stream := 0, [], [];
    }

    /** Delivers the complete frames among the first size bytes; off is where the first
        incomplete one starts. */
    method DeliverFrames(size: nat) returns (ok: bool, off: nat)
      requires Valid() && size <= rbuffer.Length && Resumes(decoder, stream, delivered, rbuffer[..size])
      modifies this`delivered
      ensures off <= size && delivered == Split(decoder, 0, stream).frames
      ensures ok <==> !Split(decoder, 0, stream).bad
      ensures ok ==> Split(decoder, 0, stream).rest == rbuffer[off..size]
    {
      off := 0;
      while off < size
        modifies this`delivered
        invariant 0 <= off <= size && Resumes(decoder, stream, delivered, rbuffer[off..size])
      {
        if size - off < HEADER_SIZE { break; }
        var header := decoder.header(rbuffer[off..off + HEADER_SIZE]);
        if header.Length? && size - off < header.n { break; }
        if header.NotCaps? || !decoder.accepts(|delivered|, rbuffer[off..off + header.n]) {
          StopsAt(decoder, stream, delivered, rbuffer[..], off, size);
          return false, off;
        }
        DeliversAt(decoder, stream, delivered, rbuffer[..], off, size, header.n);
        delivered := delivered + [rbuffer[off..off + header.n]];
        off := off + header.n;
      }
      StopsAt(decoder, stream, delivered, rbuffer[..], off, size);
      return true, off;
    }

    /** Delivers what is complete among the first size bytes and keeps the rest. */
    method HandleReceived(size: nat) returns (ok: bool)
      requires Valid() && size <= rbuffer.Length && Resumes(decoder, stream, delivered, rbuffer[..size])
      modifies this`delivered, this`rbufOff, rbuffer
      ensures Valid() && delivered == Split(decoder, 0, stream).frames
      ensures ok <==> !Split(decoder, 0, stream).bad
      ensures ok ==> Idle()
    {
      var off;
      ok, off := DeliverFrames(size);
      if ok {
        if off > 0 && size - off > 0 { MoveToFront(rbuffer, off, size - off); }
        rbufOff := size - off;
      }
    }

    /** One turn of the receive loop. */
    method RecvTurn(chunk: seq<byte>) returns (r: Received)
      requires Valid() && Idle() && |chunk| <= rbuffer.Length - rbufOff
      modifies this, rbuffer
      ensures Valid() && rbuffer == old(rbuffer)
      ensures stream == old(stream) + chunk && delivered == Split(decoder, 0, stream).frames
      ensures r == InsufficientBuffer <==> old(rbufOff) == rbuffer.Length
      ensures r == InsufficientBuffer ==> Oversize(decoder, Split(decoder, 0, stream).rest, rbuffer.Length)
      ensures r == More ==> Idle()
      ensures r == Failed ==> chunk == [] || Split(decoder, 0, stream).bad
    {
      if rbufOff == rbuffer.Length {
        FullIsOversize(decoder, 0, stream, rbuffer.Length);
        assert stream + chunk == stream;
        return InsufficientBuffer;
      }
      if chunk == [] {
        assert stream + chunk == stream;
        return Failed;
      }
      CopyInto(rbuffer, rbufOff, chunk);
      SplitResumes(decoder, 0, stream, chunk);
      stream := stream + chunk;
      var ok := HandleReceived(rbufOff + |chunk|);
      return if ok then More else Failed;
    }
  }

  /** What is left of a good split and fills a buffer starts a longer frame. */
  lemma {:induction false} FullIsOversize(d: Decoder, k: nat, s: seq<byte>, size: nat)
    requires Sane(d) && !Split(d, k, s).bad && |Split(d, k, s).rest| == size >= HEADER_SIZE
    ensures Oversize(d, Split(d, k, s).rest, size)
    decreases |s|
  {
    var n := Cases(d, k, s);
    if Starts(d, k, s, n) {
      SplitCons(d, k, s, n);
      FullIsOversize(d, k + 1, s[n..], size);
    }
  }

  /** The same for the client: any sequence of frames that fit, in reads of any size. */
  method ReceiveStream(b: ReceiveBuffer, fs: seq<seq<byte>>, sizes: nat -> nat) returns (ok: bool)
    requires b.Valid() && b.Idle() && b.stream == []
    requires forall i | 0 <= i < |fs| :: IsFrame(b.decoder, i, fs[i]) && |fs[i]| <= b.rbuffer.Length
    modifies b, b.rbuffer
    ensures ok && b.delivered == fs
  {
    var s := Concat(fs);
    var off, turns := 0, 0;
    while off < |s|
      invariant 0 <= off <= |s| && b.rbuffer == old(b.rbuffer) && b.Valid() && b.Idle() && b.stream == s[..off]
      decreases |s| - off
    {
      RoomLeft(b.decoder, fs, s[..off], b.rbuffer.Length);
      var n := Chunk(sizes(turns), b.rbuffer.Length - b.rbufOff, |s| - off);
      assert s[..off] + s[off..off + n] == s[..off + n];
      PrefixFrames(b.decoder, fs, s[..off + n], b.rbuffer.Length);
      var r := b.RecvTurn(s[off..off + n]);
      if r != More { return false; }
      off, turns := off + n, turns + 1;
    }
    assert s[..off] == s;
    PrefixFrames(b.decoder, fs, s, b.rbuffer.Length);
    return true;
  }

  /** Part of a stream of fitting frames never fills the buffer. */
  lemma RoomLeft(d: Decoder, fs: seq<seq<byte>>, s: seq<byte>, size: nat)
    requires Sane(d) && s <= Concat(fs) && size >= HEADER_SIZE
    requires forall i | 0 <= i < |fs| :: IsFrame(d, i, fs[i]) && |fs[i]| <= size
    ensures |Split(d, 0, s).rest| != size
  {
    PrefixFrames(d, fs, s, size);
    if |Split(d, 0, s).rest| == size { FullIsOversize(d, 0, s, size); }
  }
}
