/** Watching a stream for a marker that may be split across writes, with only
    the marker's length of the stream kept. */
module ReadyMarker {

  const MARKER := "Listening for Jobs"

  predicate OccursAt(s: string, m: string, i: nat) {
    i + |m| <= |s| && s[i..i + |m|] == m
  }

  predicate Contains(s: string, m: string) {
    exists i | 0 <= i <= |s| :: OccursAt(s, m, i)
  }

  /** The last characters of `s`, at most `n` of them. */
  function Suffix(s: string, n: nat): (r: string)
    ensures |r| == if |s| < n then |s| else n
  {
    if |s| < n then s else s[|s| - n..]
  }

  /** An occurrence in `s + p` lies in `s` or reaches into `p` from its last characters. */
  lemma OccurrenceIsNearTheEnd(s: string, p: string, m: string, keep: nat)
    requires |m| >= 1 && keep >= |m| - 1 && Contains(s + p, m)
    ensures Contains(s, m) || Contains(Suffix(s, keep) + p, m)
  {
    var cut := |s| - |Suffix(s, keep)|;
    var i :| 0 <= i <= |s + p| && OccursAt(s + p, m, i);
    if i + |m| <= |s| {
      assert s[i..i + |m|] == (s + p)[i..i + |m|];
      assert OccursAt(s, m, i);
    } else {
      assert Suffix(s, keep) + p == (s + p)[cut..];
      assert (s + p)[cut..][i - cut..i - cut + |m|] == (s + p)[i..i + |m|];
      assert OccursAt(Suffix(s, keep) + p, m, i - cut);
    }
  }

  lemma OccurrenceStays(s: string, p: string, m: string, keep: nat)
    requires Contains(s, m) || Contains(Suffix(s, keep) + p, m)
    ensures Contains(s + p, m)
  {
    if Contains(s, m) {
      var i :| 0 <= i <= |s| && OccursAt(s, m, i);
      assert (s + p)[i..i + |m|] == s[i..i + |m|];
      assert OccursAt(s + p, m, i);
    } else {
      var cut := |s| - |Suffix(s, keep)|;
      var i :| 0 <= i <= |Suffix(s, keep) + p| && OccursAt(Suffix(s, keep) + p, m, i);
      assert Suffix(s, keep) + p == (s + p)[cut..];
      assert (s + p)[cut..][i..i + |m|] == (s + p)[cut + i..cut + i + |m|];
      assert OccursAt(s + p, m, cut + i);
    }
  }

  /** Everything but the last characters of `s` may be forgotten. */
  lemma SuffixSuffices(s: string, p: string, m: string, keep: nat)
    requires |m| >= 1 && keep >= |m| - 1
    ensures Contains(s + p, m) <==> Contains(s, m) || Contains(Suffix(s, keep) + p, m)
  {
    if Contains(s + p, m) {
      OccurrenceIsNearTheEnd(s, p, m, keep);
    }
    if Contains(s, m) || Contains(Suffix(s, keep) + p, m) {
      OccurrenceStays(s, p, m, keep);
    }
  }

  lemma SuffixOfSuffix(s: string, p: string, n: nat)
    ensures Suffix(Suffix(s, n) + p, n) == Suffix(s + p, n)
  {
    if |s| >= n {
      var a, t := s + p, Suffix(s, n) + p;
      assert t == a[|s| - n..];
      assert t[|p|..] == a[|s| - n..][|p|..] == a[|s| - n + |p|..];
    }
  }

  class Writer {
    const marker: string
    var tail: string
    var found: bool
    ghost var written: string

    /** The marker has been found exactly when all that was written contains it. */
    ghost predicate Valid()
      reads this
    {
      && marker != ""
      && tail == Suffix(written, |marker| - 1)
      && (found <==> Contains(written, marker))
    }

    constructor ()
      ensures Valid() && marker == MARKER && written == "" && !found
    {
      marker, tail, found, written := MARKER, "", false, "";
      new;
      assert forall i :: !OccursAt("", marker, i);
    }

    /** However the output is cut into writes, the state depends on all of it together. */
    method Write(p: string) returns (n: nat)
      requires Valid()
      modifies this
      ensures Valid() && written == old(written) + p && n == |p|
      ensures |tail| < |marker|
      ensures found <==> Contains(old(written) + p, marker)
    {
      SuffixSuffices(written, p, marker, |marker| - 1);
      SuffixOfSuffix(written, p, |marker| - 1);
      var s := tail + p;
      if Contains(s, marker) {
        found := true;
      }
      if |s| >= |marker| {
        s := s[|s| - |marker| + 1..];
      }
      tail := s;
      written := written + p;
      n := |p|;
    }
  }

  function Joined(chunks: seq<string>): string {
    if chunks == [] then "" else Joined(chunks[..|chunks| - 1]) + chunks[|chunks| - 1]
  }

  /** The same output in other chunks leaves the writer in the same state. */
  method WriteAll(chunks: seq<string>) returns (w: Writer)
    ensures fresh(w) && w.Valid() && w.written == Joined(chunks)
    ensures w.found <==> Contains(Joined(chunks), MARKER)
    ensures w.tail == Suffix(Joined(chunks), |MARKER| - 1)
  {
    w := new Writer();
    for i := 0 to |chunks|
      invariant w.Valid() && fresh(w) && w.marker == MARKER && w.written == Joined(chunks[..i])
    {
      var _ := w.Write(chunks[i]);
      assert chunks[..i + 1][..i] == chunks[..i];
    }
    assert chunks[..|chunks|] == chunks;
  }
}

/** Reading a multiplexed log stream whose frame headers are not to be trusted. */
module DockerFrames {

  type Byte = b: int | 0 <= b < 256

  const MAX_FRAME := 1024 * 1024
  const WORD := 0x1_0000_0000

  /** The length a header announces, in big-endian order. */
  function Length(h: seq<Byte>): (r: nat)
    requires |h| == 8
    ensures r < WORD
  {
    ((h[4] as int * 256 + h[5] as int) * 256 + h[6] as int) * 256 + h[7] as int
  }

  predicate ValidHeader(h: seq<Byte>) {
    |h| == 8 && Length(h) <= MAX_FRAME && h[1] == 0 && h[2] == 0 && h[3] == 0
  }

  /** The header Docker writes before `n` bytes of stream `t`. */
  function Header(t: Byte, n: nat): (h: seq<Byte>)
    requires n < WORD
    ensures |h| == 8
  {
    [t, 0, 0, 0, n / 0x100_0000, n / 0x1_0000 % 0x100, n / 0x100 % 0x100, n % 0x100]
  }

  /** A header is read back as the length it was written for, and the valid ones
      are exactly those written for at most one mebibyte. */
  lemma HeaderRoundTrip(t: Byte, n: nat)
    requires n < WORD
    ensures Length(Header(t, n)) == n && (ValidHeader(Header(t, n)) <==> n <= 1_048_576)
  {
    var a, b, c := n / 0x100, n / 0x1_0000, n / 0x100_0000;
    assert n == a * 0x100 + n % 0x100 && b == a / 0x100 && c == b / 0x100;
    assert a == b * 0x100 + a % 0x100 && b == c * 0x100 + b % 0x100;
  }

  lemma ValidHeaderIsWritten(h: seq<Byte>)
    requires ValidHeader(h)
    ensures h == Header(h[0], Length(h))
  {
    var n := Length(h);
    assert n / 0x100 == (h[4] as int * 256 + h[5] as int) * 256 + h[6] as int;
    assert n / 0x1_0000 == n / 0x100 / 0x100 == h[4] as int * 256 + h[5] as int;
    assert n / 0x100_0000 == n / 0x1_0000 / 0x100 == h[4] as int;
  }

  predicate WholeFrame(f: seq<Byte>) {
    |f| >= 8 && ValidHeader(f[..8]) && |f| == 8 + Length(f[..8])
  }

  /** Shorter than a header, or a header and some of its body. */
  predicate PartialFrame(f: seq<Byte>) {
    |f| < 8 || (ValidHeader(f[..8]) && |f| < 8 + Length(f[..8]))
  }

  function Joined(frames: seq<seq<Byte>>): seq<Byte> {
    if frames == [] then [] else Joined(frames[..|frames| - 1]) + frames[|frames| - 1]
  }

  /** How many bytes may be read of a frame with `remaining` to come into a
      buffer of `len`, as the program computes it: the length is cut to 32 bits. */
  function Limit(len: nat, remaining: nat): nat {
    if len % WORD > remaining then remaining else len
  }

  /** The limit keeps within the frame exactly when the cut-off length does not
      pass for a smaller one. */
  lemma LimitIsSafe(len: nat, remaining: nat)
    requires remaining < WORD
    ensures Limit(len, remaining) <= remaining <==> len % WORD > remaining || len <= remaining
    ensures len < WORD ==> Limit(len, remaining) == if len > remaining then remaining else len
    ensures len < WORD ==> Limit(len, remaining) <= remaining
  {}

  /** A buffer of exactly 2^32 bytes would read past a frame with one byte left. */
  lemma LimitCanOverrun()
    ensures Limit(WORD, 1) == WORD > 1
  {}

  /** 32-bit subtraction: exact as long as it does not go below zero. */
  function Minus(remaining: nat, n: nat): (r: nat)
    requires remaining < WORD
    ensures r < WORD && (n <= remaining ==> r == remaining - n)
  {
    (remaining - n) % WORD
  }

  /** Copies what fits, and says how much that was. */
  method Copy(p: array<Byte>, from: seq<Byte>) returns (n: nat)
    modifies p
    ensures n == if p.Length < |from| then p.Length else |from|
    ensures p[..n] == from[..n] && p[n..] == old(p[n..])
  {
    n := if p.Length < |from| then p.Length else |from|;
    forall i | 0 <= i < n {
      p[i] := from[i];
    }
  }

  /** Where the bytes come from: reads may be short, and may fail at any point;
      those of a reliable source bring something until everything has been read,
      and fail only then. */
  class Source {
    const reliable: bool
    var unread: seq<Byte>
    ghost var taken: seq<Byte>

    constructor (data: seq<Byte>, reliable: bool)
      ensures unread == data && taken == [] && this.reliable == reliable
    {
      this.reliable, unread, taken := reliable, data, [];
    }

    method Read(max: nat) returns (got: seq<Byte>, failed: bool)
      modifies this
      ensures |got| <= max && old(unread) == got + unread && taken == old(taken) + got
      ensures reliable && failed ==> unread == []
      ensures reliable && max > 0 && got == [] ==> failed
    {
      var n: int := *;
      if n < 0 || n > max || n > |unread| || (reliable && n == 0) {
        n := if max < |unread| then max else |unread|;
      }
      got := unread[..n];
      unread := unread[n..];
      taken := taken + got;
      failed := *;
      failed := if reliable && unread == [] then failed || got == [] else failed && !reliable;
    }

    /** All eight bytes of a header, or fewer and an error. */
    method ReadHeader() returns (got: seq<Byte>, failed: bool)
      modifies this
      ensures old(unread) == got + unread && taken == old(taken) + got
      ensures |got| <= 8 && (failed <==> |got| != 8)
      ensures reliable && failed ==> unread == []
    {
      var n: int := *;
      if n < 0 || n > 8 || n > |unread| || reliable {
        n := if 8 < |unread| then 8 else |unread|;
      }
      got := unread[..n];
      unread := unread[n..];
      taken := taken + got;
      failed := |got| != 8;
    }
  }

  /** What was delivered and taken, as frames: `frames` are complete; of the one
      being read, header `h` was taken whole and `pos` bytes of it delivered,
      and `body` is what was read after it. */
  ghost predicate Claim(frames: seq<seq<Byte>>, inFrame: bool, h: seq<Byte>, pos: nat, body: seq<Byte>, remaining: nat,
                        delivered: seq<Byte>, taken: seq<Byte>)
  {
    && (forall i | 0 <= i < |frames| :: WholeFrame(frames[i]))
    && (if !inFrame then delivered == taken == Joined(frames)
        else
          && ValidHeader(h) && pos <= 8
          && |body| + remaining == Length(h)
          && (pos < 8 ==> body == []) && (pos == 8 ==> remaining > 0)
          && delivered == Joined(frames) + h[..pos] + body
          && taken == Joined(frames) + h + body)
  }

  lemma JoinedOneMore(frames: seq<seq<Byte>>, f: seq<Byte>)
    ensures Joined(frames + [f]) == Joined(frames) + f
  {
    assert (frames + [f])[..|frames|] == frames;
  }

  lemma HeaderTaken(frames: seq<seq<Byte>>, h0: seq<Byte>, pos0: nat, body0: seq<Byte>, remaining0: nat,
                    delivered: seq<Byte>, taken: seq<Byte>, h: seq<Byte>)
    requires Claim(frames, false, h0, pos0, body0, remaining0, delivered, taken) && ValidHeader(h)
    ensures Claim(frames, true, h, 0, [], Length(h), delivered, taken + h)
  {}

  lemma HeaderDelivered(frames: seq<seq<Byte>>, h: seq<Byte>, pos: nat, body: seq<Byte>, remaining: nat,
                        delivered: seq<Byte>, taken: seq<Byte>, n: nat)
    requires Claim(frames, true, h, pos, body, remaining, delivered, taken) && pos < 8 && pos + n <= 8
    ensures var more := delivered + h[pos..pos + n];
            if pos + n == 8 && remaining == 0
            then Claim(frames + [h], false, h, pos + n, body, remaining, more, taken)
            else Claim(frames, true, h, pos + n, body, remaining, more, taken)
  {
    assert h[..pos] + h[pos..pos + n] == h[..pos + n];
    JoinedOneMore(frames, h);
    assert h[..8] == h;
  }

  lemma BodyDelivered(frames: seq<seq<Byte>>, h: seq<Byte>, body: seq<Byte>, remaining: nat,
                      delivered: seq<Byte>, taken: seq<Byte>, got: seq<Byte>)
    requires Claim(frames, true, h, 8, body, remaining, delivered, taken) && |got| <= remaining
    ensures if |got| == remaining
            then Claim(frames + [h + (body + got)], false, h, 8, body + got, 0, delivered + got, taken + got)
            else Claim(frames, true, h, 8, body + got, remaining - |got|, delivered + got, taken + got)
  {
    var f := h + (body + got);
    assert h[..8] == h && f[..8] == h;
    assert h + body + got == f;
    JoinedOneMore(frames, f);
    assert Joined(frames) + h + body + got == Joined(frames) + f;
  }

  /** A whole valid header stands in `s` at `at`. */
  predicate HeaderAt(s: seq<Byte>, at: nat) {
    at + 8 <= |s| && ValidHeader(s[at..at + 8])
  }

  /** `delivered` is a prefix of what came in: whole valid frames and, if
      anything more, the beginning of a frame whose whole header came in and is
      valid. */
  ghost predicate Framed(frames: seq<seq<Byte>>, part: seq<Byte>, delivered: seq<Byte>, came: seq<Byte>) {
    && (forall i | 0 <= i < |frames| :: WholeFrame(frames[i]))
    && delivered == Joined(frames) + part && PartialFrame(part) && delivered <= came
    && (part != [] ==> HeaderAt(came, |Joined(frames)|))
  }

  /** Nothing that was taken is kept back but a valid header. */
  ghost predicate HandedOut(frames: seq<seq<Byte>>, delivered: seq<Byte>, taken: seq<Byte>) {
    delivered == taken || (|taken| == |Joined(frames)| + 8 && HeaderAt(taken, |Joined(frames)|))
  }

  /** The claim read off. */
  lemma ClaimIsFramed(frames: seq<seq<Byte>>, inFrame: bool, h: seq<Byte>, pos: nat, body: seq<Byte>, remaining: nat,
                      delivered: seq<Byte>, taken: seq<Byte>)
    requires Claim(frames, inFrame, h, pos, body, remaining, delivered, taken)
    ensures Framed(frames, if inFrame then h[..pos] + body else [], delivered, taken)
    ensures HandedOut(frames, delivered, taken)
    ensures !inFrame || pos == 8 ==> delivered == taken
  {
    if inFrame {
      assert pos == 8 ==> h[..pos] == h;
      var part := h[..pos] + body;
      assert delivered == Joined(frames) + part;
      assert pos == 8 ==> part[..8] == h;
      assert pos < 8 ==> delivered == taken[..|delivered|];
      assert taken[|Joined(frames)|..|Joined(frames)| + 8] == h;
    }
  }

  lemma FramedExtends(frames: seq<seq<Byte>>, part: seq<Byte>, delivered: seq<Byte>, came: seq<Byte>, all: seq<Byte>)
    requires Framed(frames, part, delivered, came) && came <= all
    ensures Framed(frames, part, delivered, all)
  {
    var at := |Joined(frames)|;
    if part != [] {
      assert all[at..at + 8] == came[at..at + 8];
    }
  }

  lemma {:induction false} JoinedHead(frames: seq<seq<Byte>>)
    requires frames != []
    ensures Joined(frames) == frames[0] + Joined(frames[1..])
  {
    if |frames| == 1 {
      assert frames[..0] == [] && frames[1..] == [];
    } else {
      var m := |frames| - 1;
      JoinedHead(frames[..m]);
      assert frames[..m][1..] == frames[1..][..m - 1];
      assert Joined(frames[1..]) == Joined(frames[1..][..m - 1]) + frames[m];
    }
  }

  lemma HeadFirst(frames: seq<seq<Byte>>, p: seq<Byte>)
    requires frames != []
    ensures Joined(frames) + p == frames[0] + (Joined(frames[1..]) + p)
  {
    JoinedHead(frames);
  }

  lemma SameFirstFrame(f: seq<Byte>, g: seq<Byte>, a: seq<Byte>, b: seq<Byte>)
    requires WholeFrame(f) && f + a == g + b
    requires WholeFrame(g) || (PartialFrame(g) && b == [])
    ensures WholeFrame(g) && f == g && a == b
  {
    var s := f + a;
    if |g| >= 8 {
      assert f[..8] == s[..8] == (g + b)[..8] == g[..8];
    }
    assert |f| <= |s| && WholeFrame(g);
    assert f == s[..|f|] && g == (g + b)[..|f|];
    assert a == s[|f|..] && b == (g + b)[|f|..];
  }

  /** A stream is cut into frames in one way only. */
  lemma {:induction false} FramingIsUnique(fs: seq<seq<Byte>>, p: seq<Byte>, gs: seq<seq<Byte>>, q: seq<Byte>)
    requires forall i | 0 <= i < |fs| :: WholeFrame(fs[i])
    requires forall i | 0 <= i < |gs| :: WholeFrame(gs[i])
    requires PartialFrame(p) && PartialFrame(q) && Joined(fs) + p == Joined(gs) + q
    ensures fs == gs && p == q
    decreases |fs| + |gs|, |gs|
  {
    if fs == [] && gs == [] {
      assert Joined(fs) + p == p && Joined(gs) + q == q;
    } else if fs == [] {
      FramingIsUnique(gs, q, fs, p);
    } else {
      HeadFirst(fs, p);
      if gs == [] {
        assert Joined(gs) + q == q + [];
        SameFirstFrame(fs[0], q, Joined(fs[1..]) + p, []);
        assert false;
      } else {
        HeadFirst(gs, q);
        SameFirstFrame(fs[0], gs[0], Joined(fs[1..]) + p, Joined(gs[1..]) + q);
        FramingIsUnique(fs[1..], p, gs[1..], q);
        assert fs == [fs[0]] + fs[1..] && gs == [gs[0]] + gs[1..];
      }
    }
  }

  /** When the limit is not safe, a source that answers with one byte more than
      the frame has left makes the count wrap around, and what was delivered can
      no longer be read as frames in any way. */
  lemma UnsafeLimitBreaksFraming(len: nat, frames: seq<seq<Byte>>, h: seq<Byte>, body: seq<Byte>, remaining: nat,
                                 delivered: seq<Byte>, taken: seq<Byte>, got: seq<Byte>)
    requires Claim(frames, true, h, 8, body, remaining, delivered, taken)
    requires Limit(len, remaining) > remaining && |got| == remaining + 1
    ensures |got| <= Limit(len, remaining)
    ensures Minus(remaining, |got|) == WORD - 1
    ensures forall fs, p :: !Framed(fs, p, delivered + got, taken + got)
  {
    var inside, extra := got[..remaining], got[remaining..];
    BodyDelivered(frames, h, body, remaining, delivered, taken, inside);
    var whole := frames + [h + (body + inside)];
    assert delivered + got == Joined(whole) + extra by {
      assert got == inside + extra && delivered + got == delivered + inside + extra;
    }
    assert |taken + got| == |Joined(whole)| + 1;
    forall fs, p | Framed(fs, p, delivered + got, taken + got) ensures false {
      FramingIsUnique(fs, p, whole, extra);
    }
  }

  class BoundedFrames {
    const source: Source
    const header: array<Byte>
    var headerPos: nat
    var remaining: nat
    var inFrame: bool
    ghost var frames: seq<seq<Byte>>
    ghost var body: seq<Byte>
    ghost var delivered: seq<Byte>
    ghost var broken: bool

    /** Until a header is refused the stream keeps its claim. */
    ghost predicate Valid()
      reads this, header, source
    {
      && header.Length == 8 && headerPos <= 8 && remaining < WORD
      && (!broken ==> Claim(frames, inFrame, header[..], headerPos, body, remaining, delivered, source.taken))
    }

    constructor (source: Source)
      requires source.taken == []
      ensures Valid() && this.source == source && delivered == [] && !broken && fresh(header)
    {
      this.source := source;
      header := new Byte[8](i => 0);
      headerPos, remaining, inFrame := 0, 0, false;
      frames, body, delivered, broken := [], [], [], false;
    }

    /** Reads the next header, or refuses it. */
    method TakeHeader() returns (failed: bool)
      requires Valid() && !inFrame
      modifies this`headerPos, this`remaining, this`inFrame, this`body, this`broken, header, source
      ensures Valid() && (failed ==> broken && !inFrame) && (!failed ==> inFrame && headerPos == 0 && broken == old(broken))
      ensures old(source.taken + source.unread) == source.taken + source.unread
      ensures old(source.taken) <= source.taken && |source.taken| <= |old(source.taken)| + 8
      ensures failed <==> !ValidHeader(source.taken[|old(source.taken)|..])
      ensures source.reliable && |source.taken| < |old(source.taken)| + 8 ==> source.unread == []
      ensures !failed ==> header[..] == source.taken[|old(source.taken)|..] && remaining == Length(header[..])
    {
      var got, short := source.ReadHeader();
      forall i | 0 <= i < |got| {
        header[i] := got[i];
      }
      if short {
        broken := true;
        return true;
      }
      assert header[..] == got;
      remaining := Length(header[..]);
      if remaining > MAX_FRAME || header[1] != 0 || header[2] != 0 || header[3] != 0 {
        broken := true;
        return true;
      }
      if !broken {
        HeaderTaken(frames, old(header[..]), headerPos, body, old(remaining), delivered, old(source.taken), got);
      }
      headerPos, inFrame, body := 0, true, [];
      failed := false;
    }

    /** Hands out what fits of the header that is held back. */
    method CopyHeader(p: array<Byte>) returns (n: nat)
      requires Valid() && p != header && p.Length > 0 && inFrame && headerPos < 8
      modifies this`headerPos, this`inFrame, this`frames, this`delivered, p
      ensures n <= p.Length && Valid() && delivered == old(delivered) + p[..n]
      ensures n == if p.Length < 8 - old(headerPos) then p.Length else 8 - old(headerPos)
      ensures p[..n] == header[old(headerPos)..old(headerPos) + n] && headerPos == old(headerPos) + n
      ensures p[n..] == old(p[n..])
    {
      n := Copy(p, header[headerPos..]);
      assert header[headerPos..][..n] == header[headerPos..headerPos + n];
      if !broken {
        HeaderDelivered(frames, header[..], headerPos, body, remaining, delivered, source.taken, n);
        assert header[..][headerPos..headerPos + n] == p[..n];
      }
      delivered := delivered + p[..n];
      headerPos := headerPos + n;
      if headerPos == 8 && remaining == 0 {
        inFrame := false;
        frames := frames + [header[..]];
      }
    }

    /** Reads on in the body of the current frame. */
    method ReadBody(p: array<Byte>) returns (n: nat, failed: bool)
      requires Valid() && p != header && p.Length > 0 && inFrame && headerPos == 8
      modifies this`remaining, this`inFrame, this`frames, this`body, this`delivered, source, p
      ensures n <= p.Length && delivered == old(delivered) + p[..n]
      ensures p[n..] == old(p[n..])
      ensures Limit(p.Length, old(remaining)) <= old(remaining) ==> Valid()
      ensures old(source.unread) == p[..n] + source.unread && source.taken == old(source.taken) + p[..n]
      ensures source.reliable && failed ==> source.unread == []
      ensures headerPos == 8
      ensures source.reliable && Limit(p.Length, old(remaining)) > 0 && n == 0 ==> failed
    {
      var limit := Limit(p.Length, remaining);
      var got, error := source.Read(limit);
      n := Copy(p, got);
      failed := error;
      assert got[..n] == got;
      if !broken && limit <= remaining {
        BodyDelivered(frames, header[..], body, remaining, delivered, old(source.taken), got);
      }
      delivered, body := delivered + got, body + got;
      remaining := Minus(remaining, n);
      if remaining == 0 {
        inFrame := false;
        frames := frames + [header[..] + body];
      }
    }

    /** One read. A refused header delivers nothing and ends the stream's claim;
        otherwise the claim holds again, unless the buffer is so long that its
        length cut to 32 bits lets the read run past the frame. */
    method Read(p: array<Byte>) returns (n: nat, failed: bool)
      requires Valid() && p != header
      modifies this, header, source, p
      ensures n <= p.Length && delivered == old(delivered) + p[..n]
      ensures p[n..] == old(p[n..])
      ensures old(!inFrame || headerPos < 8) || Limit(p.Length, old(remaining)) <= old(remaining) ==> Valid()
      ensures old(source.taken + source.unread) == source.taken + source.unread
      ensures p.Length == 0 ==> source.unread == old(source.unread) && broken == old(broken)
      ensures broken && !old(broken) ==> n == 0 && failed && !old(inFrame) && !HeaderAt(source.taken, |old(source.taken)|)
      ensures broken && !old(broken) ==> old(source.taken) <= source.taken && |source.taken| <= |old(source.taken)| + 8
      ensures broken && !old(broken) && source.reliable && |source.taken| < |old(source.taken)| + 8 ==> source.unread == []
      ensures failed && !broken ==> headerPos == 8 && (source.reliable ==> source.unread == [])
      ensures !failed && p.Length > 0 && old(!inFrame || headerPos < 8) ==> n > 0
      ensures !failed && source.reliable && Limit(p.Length, old(remaining)) > 0 ==> n > 0
    {
      if p.Length == 0 {
        return 0, false;
      }
      if !inFrame {
        var refused := TakeHeader();
        if refused {
          return 0, true;
        }
      }
      if headerPos < 8 {
        n := CopyHeader(p);
        failed := false;
      } else {
        n, failed := ReadBody(p);
      }
    }
  }

  /** How reading may have ended. A header was refused: what came in after the
      last whole frame is no valid header, and none of it was handed out. Or the
      source failed: all that came in was handed out. */
  ghost predicate Ended(part: seq<Byte>, delivered: seq<Byte>, taken: seq<Byte>) {
    delivered == taken ||
    (part == [] && |taken| <= |delivered| + 8 && !HeaderAt(taken, |delivered|))
  }

  /** A reliable source fails only at its end, so all of the data has been handed
      out but for what follows the last whole frame and has no valid header. */
  ghost predicate Exhausted(part: seq<Byte>, delivered: seq<Byte>, data: seq<Byte>) {
    delivered == data || (part == [] && !HeaderAt(data, |delivered|))
  }

  /** The frames of a stream that has not refused a header. */
  ghost method FramesOf(r: BoundedFrames) returns (frames: seq<seq<Byte>>, part: seq<Byte>)
    requires r.Valid() && !r.broken
    ensures Framed(frames, part, r.delivered, r.source.taken) && HandedOut(frames, r.delivered, r.source.taken)
    ensures !r.inFrame ==> part == []
    ensures !r.inFrame || r.headerPos == 8 ==> r.delivered == r.source.taken
  {
    ClaimIsFramed(r.frames, r.inFrame, r.header[..], r.headerPos, r.body, r.remaining, r.delivered, r.source.taken);
    frames, part := r.frames, if r.inFrame then r.header[..][..r.headerPos] + r.body else [];
  }

  lemma RefusalEnds(part: seq<Byte>, delivered: seq<Byte>, taken: seq<Byte>, unread: seq<Byte>, reliable: bool)
    requires part == [] && |taken| <= |delivered| + 8 && !HeaderAt(taken, |delivered|)
    requires reliable && |taken| < |delivered| + 8 ==> unread == []
    ensures reliable ==> Exhausted(part, delivered, taken + unread)
  {
    var at, all := |delivered|, taken + unread;
    assert at + 8 <= |taken| ==> all[at..at + 8] == taken[at..at + 8];
  }

  /** One read into a buffer of its own, with what has been delivered by then. */
  method ReadOnce(r: BoundedFrames, size: nat)
    returns (chunk: seq<Byte>, failed: bool, ghost frames: seq<seq<Byte>>, ghost part: seq<Byte>)
    requires r.Valid() && !r.broken && size < WORD
    modifies r, r.header, r.source
    ensures r.Valid() && r.delivered == old(r.delivered) + chunk && (r.broken ==> failed)
    ensures r.source.taken + r.source.unread == old(r.source.taken + r.source.unread)
    ensures Framed(frames, part, r.delivered, r.source.taken)
    ensures !failed ==> HandedOut(frames, r.delivered, r.source.taken)
    ensures failed ==> Ended(part, r.delivered, r.source.taken)
    ensures failed && r.source.reliable ==> Exhausted(part, r.delivered, r.source.taken + r.source.unread)
    ensures !failed && r.source.reliable && size > 0 ==> chunk != []
  {
    frames, part := FramesOf(r);
    ghost var before := r.source.taken;
    var p := new Byte[size](k => 0);
    var n;
    n, failed := r.Read(p);
    chunk := p[..n];
    if r.broken {
      FramedExtends(frames, part, r.delivered, before, r.source.taken);
      RefusalEnds(part, r.delivered, r.source.taken, r.source.unread, r.source.reliable);
    } else {
      frames, part := FramesOf(r);
    }
  }

  /** For every source and every sequence of buffers shorter than 2^32 bytes, up
      to the first error. The bytes delivered are whole valid frames and the
      beginning of at most one more, whose header came in whole and valid; they
      are all that was taken but for a header held back or refused; and with a
      reliable source every read brings something until an error, which comes
      only where the data has no further frame. */
  method ReadAll(data: seq<Byte>, reliable: bool, sizes: seq<nat>)
    returns (out: seq<Byte>, taken: seq<Byte>, failed: bool, ghost frames: seq<seq<Byte>>, ghost part: seq<Byte>)
    requires forall i | 0 <= i < |sizes| :: sizes[i] < WORD
    ensures taken <= data && Framed(frames, part, out, taken)
    ensures Framed(frames, part, out, data)
    ensures !failed ==> HandedOut(frames, out, taken)
    ensures failed ==> Ended(part, out, taken)
    ensures failed && reliable ==> Exhausted(part, out, data)
    ensures !failed && reliable && (forall i | 0 <= i < |sizes| :: sizes[i] > 0) ==> |out| >= |sizes|
  {
    var source := new Source(data, reliable);
    var r := new BoundedFrames(source);
    out, failed := [], false;
    frames, part := FramesOf(r);
    for i := 0 to |sizes|
      invariant r.source == source && fresh(r) && fresh(source) && fresh(r.header) && source.reliable == reliable
      invariant r.Valid() && !r.broken && !failed && r.delivered == out
      invariant source.taken + source.unread == data
      invariant Framed(frames, part, out, source.taken) && HandedOut(frames, out, source.taken)
      invariant reliable && (forall j | 0 <= j < |sizes| :: sizes[j] > 0) ==> |out| >= i
    {
      var chunk;
      chunk, failed, frames, part := ReadOnce(r, sizes[i]);
      out := out + chunk;
      if failed {
        break;
      }
    }
    taken := data[..|data| - |source.unread|];
    assert taken == source.taken;
    FramedExtends(frames, part, out, taken, data);
  }
}
