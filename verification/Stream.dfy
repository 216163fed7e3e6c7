/** The length-prefixed framer: four bytes of length, then the frame. */
module Stream {
  import opened Wrappers

  type Byte = x: int | 0 <= x < 256

  type Bytes = seq<Byte>

  const MAX_FRAME: nat := 1024 * 1024
  const FAILED_ERROR := "framer is failed"
  const SIZE_ERROR := "frame exceeds 1 MiB"
  const FINISH_ERROR := "failed/truncated stream"


  // ---- the wire format ------------------------------------------------

  function Length(h: Bytes): nat
    requires |h| == 4
  {
    Join(Join(Join(h[0], h[1]), h[2]), h[3])
  }

  function Join(high: nat, low: Byte): nat {
    high * 256 + low
  }

  function Header(n: nat): (h: Bytes)
    requires n < 0x1_0000_0000
    ensures |h| == 4
  {
    [n / 256 / 256 / 256, n / 256 / 256 % 256, n / 256 % 256, n % 256]
  }

  lemma HeaderLength(n: nat)
    requires n < 0x1_0000_0000
    ensures Length(Header(n)) == n
  {
    var a := n / 256;
    var b := a / 256;
    assert Join(Join(b / 256, b % 256), a % 256) == a;
  }

  lemma JoinSplits(high: nat, low: Byte)
    ensures Join(high, low) / 256 == high && Join(high, low) % 256 == low
  {
  }

  lemma LengthHeader(h: Bytes)
    requires |h| == 4
    ensures Length(h) < 0x1_0000_0000 && Header(Length(h)) == h
  {
    var b := Join(h[0], h[1]);
    var a := Join(b, h[2]);
    JoinSplits(h[0], h[1]);
    JoinSplits(b, h[2]);
    JoinSplits(a, h[3]);
    assert Header(Length(h)) == [h[0], h[1], h[2], h[3]];
  }

  /** Four bytes give a length, the most significant first. */
  lemma BigEndian(h: Bytes)
    requires |h| == 4
    ensures Length(h) == (h[0] as int) * 0x100_0000 + (h[1] as int) * 0x1_0000 + (h[2] as int) * 0x100 + h[3]
  {
  }

  predicate Small(frame: Bytes) {
    |frame| <= MAX_FRAME
  }

  predicate AllSmall(frames: seq<Bytes>) {
    forall i | 0 <= i < |frames| :: Small(frames[i])
  }

  function Encode(frame: Bytes): Bytes
    requires Small(frame)
  {
    Header(|frame|) + frame
  }

  function EncodeAll(frames: seq<Bytes>): Bytes
    requires AllSmall(frames)
  {
    if frames == [] then [] else EncodeAll(frames[..|frames| - 1]) + Encode(frames[|frames| - 1])
  }

  // ---- the framer -----------------------------------------------------

  datatype Framer = Framer(pending: Bytes, failed: bool)

  const FRESH := Framer([], false)

  /** One byte. */
  function Take(f: Framer, b: Byte): (Framer, seq<Bytes>) {
    var pending := f.pending + [b];
    if |pending| < 4 then (Framer(pending, f.failed), [])
    else
      var len := Length(pending[..4]);
      if len > MAX_FRAME then (Framer([], true), [])
      else if |pending| == len + 4 then (Framer([], f.failed), [pending[4..]])
      else (Framer(pending, f.failed), [])
  }

  /** The bytes up to the first that makes the framer fail, if any. */
  function Absorb(f: Framer, bytes: Bytes): (Framer, seq<Bytes>) {
    if bytes == [] then (f, [])
    else
      var (f1, frames) := Absorb(f, bytes[..|bytes| - 1]);
      if f1.failed then (f1, frames)
      else
        var (f2, more) := Take(f1, bytes[|bytes| - 1]);
        (f2, frames + more)
  }

  /** A chunk: the frames it completes, or an error if the framer fails or had failed. */
  function Pushed(f: Framer, chunk: Bytes): (Framer, Result<seq<Bytes>, string>) {
    if f.failed then (f, Err(FAILED_ERROR))
    else
      var (f1, frames) := Absorb(f, chunk);
      (f1, if f1.failed then Err(SIZE_ERROR) else Ok(frames))
  }

  function Finished(f: Framer): Result<(), string> {
    if f.failed || f.pending != [] then Err(FINISH_ERROR) else Ok(())
  }

  /** Once failed, the rest of a chunk does not matter. */
  lemma {:induction false} FailedStays(f: Framer, bytes: Bytes, i: nat)
    requires i <= |bytes| && Absorb(f, bytes[..i]).0.failed
    ensures Absorb(f, bytes) == Absorb(f, bytes[..i])
    decreases |bytes|
  {
    if i == |bytes| {
      assert bytes[..i] == bytes;
    } else {
      var init := bytes[..|bytes| - 1];
      assert init[..i] == bytes[..i];
      FailedStays(f, init, i);
    }
  }

  // ---- chunks do not matter -------------------------------------------

  lemma {:induction false} AbsorbConcat(f: Framer, a: Bytes, b: Bytes)
    ensures var (f1, x) := Absorb(f, a);
      Absorb(f, a + b) == if f1.failed then (f1, x) else (Absorb(f1, b).0, x + Absorb(f1, b).1)
  {
    var (f1, x) := Absorb(f, a);
    if f1.failed {
      assert (a + b)[..|a|] == a;
      FailedStays(f, a + b, |a|);
    } else if b == [] {
      assert a + b == a && x + [] == x;
    } else {
      AbsorbConcat(f, a, b[..|b| - 1]);
      assert (a + b)[..|a + b| - 1] == a + b[..|b| - 1];
      var (f2, y) := Absorb(f1, b[..|b| - 1]);
      if !f2.failed {
        var (f3, z) := Take(f2, b[|b| - 1]);
        assert x + y + z == x + (y + z);
      }
    }
  }

  function Concat(chunks: seq<Bytes>): Bytes {
    if chunks == [] then [] else Concat(chunks[..|chunks| - 1]) + chunks[|chunks| - 1]
  }

  /** The chunks pushed one after another: the framer, and all the frames if no push has
      failed. */
  function PushAll(chunks: seq<Bytes>): (Framer, Result<seq<Bytes>, string>) {
    if chunks == [] then (FRESH, Ok([]))
    else
      var (f, r) := PushAll(chunks[..|chunks| - 1]);
      var (f1, r1) := Pushed(f, chunks[|chunks| - 1]);
      (f1, if r.Err? then r else if r1.Err? then r1 else Ok(r.value + r1.value))
  }

  /** Wherever the bytes are cut, the framer ends as if it had got them at once, and
      without a failure the frames are the same. */
  lemma {:induction false} CutsDoNotMatter(chunks: seq<Bytes>)
    ensures var ((f, r), (f', frames)) := (PushAll(chunks), Absorb(FRESH, Concat(chunks)));
      f == f' && (r.Ok? <==> !f.failed) && (r.Ok? ==> r.value == frames)
  {
    if chunks != [] {
      var init, last := chunks[..|chunks| - 1], chunks[|chunks| - 1];
      CutsDoNotMatter(init);
      AbsorbConcat(FRESH, Concat(init), last);
    }
  }

  // ---- what the bytes are ---------------------------------------------

  /** Too few bytes for a frame: part of a header, or a header that promises more. */
  predicate Partial(p: Bytes) {
    |p| < 4 || (Length(p[..4]) <= MAX_FRAME && |p| < Length(p[..4]) + 4)
  }

  /** The bytes so far are the frames returned and what is pending, until a header
      promises a frame that is too long. */
  lemma {:induction false} AbsorbParses(bytes: Bytes) returns (rest: Bytes)
    ensures var (f, frames) := Absorb(FRESH, bytes);
      && AllSmall(frames)
      && (!f.failed ==> bytes == EncodeAll(frames) + f.pending && Partial(f.pending))
      && (f.failed ==> Overlong(frames, rest) && bytes == EncodeAll(frames) + rest)
  {
    rest := [];
    if bytes == [] {
      assert EncodeAll([]) + [] == [];
    } else {
      var init, b := bytes[..|bytes| - 1], bytes[|bytes| - 1];
      var (f, frames) := Absorb(FRESH, init);
      rest := AbsorbParses(init);
      assert bytes == init + [b];
      if f.failed {
        assert bytes == EncodeAll(frames) + (rest + [b]);
        assert (rest + [b])[..4] == rest[..4];
        rest := rest + [b];
      } else {
        assert bytes == EncodeAll(frames) + (f.pending + [b]);
        TakeParses(f, frames, b);
        rest := f.pending + [b];
        assert frames + [] == frames;
      }
    }
  }

  /** After whole frames comes the header of one that is too long. */
  predicate Overlong(frames: seq<Bytes>, rest: Bytes) {
    AllSmall(frames) && |rest| >= 4 && Length(rest[..4]) > MAX_FRAME
  }

  lemma TakeParses(f: Framer, frames: seq<Bytes>, b: Byte)
    requires !f.failed && Partial(f.pending) && AllSmall(frames)
    ensures var ((f1, more), p) := (Take(f, b), f.pending + [b]);
      && AllSmall(frames + more)
      && (!f1.failed ==> EncodeAll(frames) + p == EncodeAll(frames + more) + f1.pending && Partial(f1.pending))
      && (f1.failed ==> |p| >= 4 && Length(p[..4]) > MAX_FRAME && more == [])
  {
    hide Length, Header;
    var p := f.pending + [b];
    assert frames + [] == frames;
    if |p| >= 4 {
      if |f.pending| >= 4 {
        assert p[..4] == f.pending[..4];
      }
      if Length(p[..4]) <= MAX_FRAME && |p| == Length(p[..4]) + 4 {
        LengthHeader(p[..4]);
        assert p == Encode(p[4..]);
        EncodeMore(frames, p[4..]);
        assert EncodeAll(frames) + p == EncodeAll(frames + [p[4..]]) + [];
      }
    }
  }

  lemma EncodeMore(frames: seq<Bytes>, frame: Bytes)
    requires AllSmall(frames) && Small(frame)
    ensures AllSmall(frames + [frame]) && EncodeAll(frames + [frame]) == EncodeAll(frames) + Encode(frame)
  {
    assert (frames + [frame])[..|frames|] == frames;
  }

  // ---- round trip -----------------------------------------------------

  /** One byte of the encoding of a frame, after those before it. */
  lemma TakeStep(frame: Bytes, wire: Bytes, n: nat)
    requires Small(frame) && wire == Encode(frame) && 0 < n <= |wire|
    ensures Take(Framer(wire[..n - 1], false), wire[n - 1]) ==
      if n < |wire| then (Framer(wire[..n], false), []) else (FRESH, [frame])
  {
    hide Length, Header;
    HeaderLength(|frame|);
    var p := wire[..n - 1] + [wire[n - 1]];
    assert p == wire[..n];
    if n >= 4 {
      assert p[..4] == Header(|frame|);
    }
    if n == |wire| {
      assert p[4..] == frame;
    }
  }

  /** The framer returns a frame when its last byte arrives, and not before. */
  lemma {:induction false} AbsorbFrame(frame: Bytes, wire: Bytes, n: nat)
    requires Small(frame) && wire == Encode(frame) && n <= |wire|
    ensures Absorb(FRESH, wire[..n]) == if n < |wire| then (Framer(wire[..n], false), []) else (FRESH, [frame])
  {
    hide Take, Encode, Length;
    if n == 0 {
      assert wire[..0] == [];
      EncodeSize(frame);
    } else {
      AbsorbFrame(frame, wire, n - 1);
      TakeStep(frame, wire, n);
      assert wire[..n][..n - 1] == wire[..n - 1];
      assert wire[..n][n - 1] == wire[n - 1];
      var none: seq<Bytes> := [];
      assert none + [frame] == [frame] && none + none == none;
    }
  }

  lemma EncodeSize(frame: Bytes)
    requires Small(frame)
    ensures |Encode(frame)| == |frame| + 4
  {
  }

  lemma {:induction false} AbsorbEncoded(frames: seq<Bytes>)
    requires AllSmall(frames)
    ensures Absorb(FRESH, EncodeAll(frames)) == (FRESH, frames)
  {
    hide Take, Encode, Length;
    if frames != [] {
      var init, last := frames[..|frames| - 1], frames[|frames| - 1];
      AbsorbEncoded(init);
      AbsorbConcat(FRESH, EncodeAll(init), Encode(last));
      AbsorbFrame(last, Encode(last), |Encode(last)|);
      assert Encode(last)[..|Encode(last)|] == Encode(last);
      assert init + [last] == frames;
    }
  }

  /** Every push and the finish succeed, with `frames` returned in all, just when the
      bytes are the encoding of `frames`, however they are cut. */
  lemma FramesExact(chunks: seq<Bytes>, frames: seq<Bytes>)
    ensures var (f, r) := PushAll(chunks);
      (r == Ok(frames) && Finished(f).Ok?) <==> (AllSmall(frames) && Concat(chunks) == EncodeAll(frames))
  {
    CutsDoNotMatter(chunks);
    var (f, got) := Absorb(FRESH, Concat(chunks));
    var rest := AbsorbParses(Concat(chunks));
    if AllSmall(frames) && Concat(chunks) == EncodeAll(frames) {
      AbsorbEncoded(frames);
    }
    if !f.failed && f.pending == [] {
      assert EncodeAll(got) + [] == EncodeAll(got);
    }
  }

  /** The framer fails just when, after whole frames, the header of a frame over 1 MiB
      has arrived. */
  lemma FailsExactly(chunks: seq<Bytes>)
    ensures PushAll(chunks).0.failed <==>
      exists frames, rest :: Overlong(frames, rest) && Concat(chunks) == EncodeAll(frames) + rest
  {
    hide Absorb;
    CutsDoNotMatter(chunks);
    FatalFails(Concat(chunks));
  }

  lemma AbsorbHeader(rest: Bytes)
    requires |rest| >= 4 && Length(rest[..4]) > MAX_FRAME
    ensures Absorb(FRESH, rest).0.failed
  {
    hide Length;
    var p0, p1, p2, p3, p4: Bytes := rest[..0], rest[..1], rest[..2], rest[..3], rest[..4];
    assert p1[..0] == p0 && p2[..1] == p1 && p3[..2] == p2 && p4[..3] == p3 && p4[..4] == p4;
    assert p0 + [rest[0]] == p1 && p1 + [rest[1]] == p2 && p2 + [rest[2]] == p3 && p3 + [rest[3]] == p4;
    assert Absorb(FRESH, p1).0 == Framer(p1, false);
    assert Absorb(FRESH, p2).0 == Framer(p2, false);
    assert Absorb(FRESH, p3).0 == Framer(p3, false);
    assert Absorb(FRESH, p4).0.failed;
    FailedStays(FRESH, rest, 4);
  }

  // ---- the framer, by the bytes it has been given ---------------------

  /** The bytes so far are these frames, and too little for another. */
  ghost predicate Parses(bytes: Bytes, frames: seq<Bytes>) {
    AllSmall(frames) && exists p :: Partial(p) && bytes == EncodeAll(frames) + p
  }

  /** After whole frames, the bytes have the header of one that is too long. */
  ghost predicate Fatal(bytes: Bytes) {
    exists frames, rest :: Overlong(frames, rest) && bytes == EncodeAll(frames) + rest
  }

  /** The bytes are whole frames. */
  ghost predicate Whole(bytes: Bytes) {
    exists frames :: AllSmall(frames) && bytes == EncodeAll(frames)
  }

  /** What a push gives back, by the bytes before it and with it. */
  ghost predicate Answers(before: Bytes, bytes: Bytes, r: Result<seq<Bytes>, string>) {
    match r
    case Ok(frames) => !Fatal(bytes) && exists old' :: Parses(before, old') && Parses(bytes, old' + frames)
    case Err(error) => Fatal(bytes) && error == if Fatal(before) then FAILED_ERROR else SIZE_ERROR
  }

  lemma {:induction false} AbsorbPartial(p: Bytes)
    requires Partial(p)
    ensures Absorb(FRESH, p) == (Framer(p, false), [])
  {
    hide Length;
    if p != [] {
      var init := p[..|p| - 1];
      assert |init| >= 4 ==> init[..4] == p[..4];
      AbsorbPartial(init);
      var none: seq<Bytes> := [];
      assert none + none == none && init + [p[|p| - 1]] == p;
    }
  }

  /** Bytes parse in one way at most. */
  lemma ParsesOnce(bytes: Bytes, frames: seq<Bytes>)
    requires Parses(bytes, frames)
    ensures !Absorb(FRESH, bytes).0.failed && frames == Absorb(FRESH, bytes).1
  {
    hide Take;
    var p :| Partial(p) && bytes == EncodeAll(frames) + p;
    AbsorbEncoded(frames);
    AbsorbPartial(p);
    AbsorbConcat(FRESH, EncodeAll(frames), p);
    assert frames + [] == frames;
  }

  lemma FatalFails(bytes: Bytes)
    ensures Absorb(FRESH, bytes).0.failed <==> Fatal(bytes)
    ensures !Fatal(bytes) ==> Parses(bytes, Absorb(FRESH, bytes).1)
  {
    var rest0 := AbsorbParses(bytes);
    if frames, rest :| Overlong(frames, rest) && bytes == EncodeAll(frames) + rest {
      AbsorbEncoded(frames);
      AbsorbConcat(FRESH, EncodeAll(frames), rest);
      AbsorbHeader(rest);
    }
  }

  /** Bytes are whole frames just when the framer they leave can finish. */
  lemma FinishedExactly(bytes: Bytes)
    ensures Finished(Absorb(FRESH, bytes).0).Ok? <==> Whole(bytes)
  {
    var rest := AbsorbParses(bytes);
    var (f, frames) := Absorb(FRESH, bytes);
    if !f.failed && f.pending == [] {
      assert EncodeAll(frames) + [] == EncodeAll(frames);
    }
    if frames :| AllSmall(frames) && bytes == EncodeAll(frames) {
      AbsorbEncoded(frames);
    }
  }

  /** Of any framer that has been given `before`, a push answers by the bytes alone. */
  lemma PushedAnswers(before: Bytes, chunk: Bytes)
    ensures var (f, r) := Pushed(Absorb(FRESH, before).0, chunk);
      f == Absorb(FRESH, before + chunk).0 && Answers(before, before + chunk, r)
  {
    hide Absorb;
    AbsorbConcat(FRESH, before, chunk);
    FatalFails(before);
    FatalFails(before + chunk);
  }

  /** An answer is given by the bytes. */
  lemma AnswersOnce(before: Bytes, bytes: Bytes, r: Result<seq<Bytes>, string>, r': Result<seq<Bytes>, string>)
    requires Answers(before, bytes, r) && Answers(before, bytes, r')
    ensures r == r'
  {
    hide Parses, Fatal, Absorb;
    if r.Ok? && r'.Ok? {
      var old1 :| Parses(before, old1) && Parses(bytes, old1 + r.value);
      var old2 :| Parses(before, old2) && Parses(bytes, old2 + r'.value);
      ParsesOnce(before, old1);
      ParsesOnce(before, old2);
      ParsesOnce(bytes, old1 + r.value);
      ParsesOnce(bytes, old2 + r'.value);
      assert (old1 + r.value)[|old1|..] == r.value && (old2 + r'.value)[|old2|..] == r'.value;
    }
  }

  /** `input` is everything the framer has been given. */
  class Frames {
    var pending: Bytes
    var failed: bool
    ghost var input: Bytes

    function State(): Framer
      reads this
    {
      Framer(pending, failed)
    }

    ghost predicate Valid()
      reads this
    {
      State() == Absorb(FRESH, input).0
    }

    constructor ()
      ensures Valid() && input == [] && State() == FRESH
    {
      pending, failed, input := [], false, [];
    }

    method Push(chunk: Bytes) returns (r: Result<seq<Bytes>, string>)
      requires Valid()
      modifies this
      ensures Valid() && input == old(input) + chunk && Answers(old(input), input, r)
      ensures (State(), r) == Pushed(old(State()), chunk)
    {
      hide Answers;
      input := input + chunk;
      PushedAnswers(old(input), chunk);
      if failed {
        return Err(FAILED_ERROR);
      }
      var frames: seq<Bytes> := [];
      for i := 0 to |chunk|
        invariant !failed && (State(), frames) == Absorb(old(State()), chunk[..i]) && input == old(input) + chunk
      {
        assert chunk[..i + 1][..i] == chunk[..i];
        assert frames + [] == frames;
        pending := pending + [chunk[i]];
        if |pending| >= 4 {
          var len := Length(pending[..4]);
          if len > MAX_FRAME {
            failed, pending := true, [];
            FailedStays(old(State()), chunk, i + 1);
            return Err(SIZE_ERROR);
          }
          if |pending| == len + 4 {
            frames := frames + [pending[4..]];
            pending := [];
          }
        }
      }
      assert chunk[..|chunk|] == chunk;
      r := Ok(frames);
    }

    method Finish() returns (r: Result<(), string>)
      requires Valid()
      ensures r.Ok? <==> Whole(input)
      ensures r.Err? ==> r.error == FINISH_ERROR
    {
      FinishedExactly(input);
      if failed || pending != [] {
        return Err(FINISH_ERROR);
      }
      r := Ok(());
    }
  }

  // ---- many pushes ----------------------------------------------------

  /** After any pushes, the framer can finish just when the bytes are whole frames. */
  lemma FinishesExactly(chunks: seq<Bytes>)
    ensures Finished(PushAll(chunks).0).Ok? <==> exists frames :: AllSmall(frames) && Concat(chunks) == EncodeAll(frames)
  {
    hide Absorb;
    CutsDoNotMatter(chunks);
    FinishedExactly(Concat(chunks));
  }

  /** After any pushes, the next one answers by the bytes; and once they have had an
      overlong header it is an error, and the framer stays as it is. */
  lemma EveryPush(chunks: seq<Bytes>, chunk: Bytes)
    ensures var (f, r) := Pushed(PushAll(chunks).0, chunk);
      && Answers(Concat(chunks), Concat(chunks) + chunk, r)
      && (Fatal(Concat(chunks)) ==> r == Err(FAILED_ERROR) && f == PushAll(chunks).0 && f.failed)
  {
    hide Absorb;
    CutsDoNotMatter(chunks);
    PushedAnswers(Concat(chunks), chunk);
    FatalFails(Concat(chunks));
  }

  /** Bytes that follow an overlong header change nothing: it stays one. */
  lemma FatalStays(bytes: Bytes, more: Bytes)
    requires Fatal(bytes)
    ensures Fatal(bytes + more)
  {
    var frames, rest :| Overlong(frames, rest) && bytes == EncodeAll(frames) + rest;
    assert bytes + more == EncodeAll(frames) + (rest + more);
    assert (rest + more)[..4] == rest[..4];
  }
}
