/**
 * Mumble's control framing, read a piece at a time: a six-byte header that may
 * arrive in any number of reads, cancelled anywhere, and the body it announces.
 */
module Framing {
  import opened Types
  import opened Varints

  const HEADER: nat := 6
  const MAX_FRAME: nat := 8 * 1024 * 1024

  type Kind = x: int | 0 <= x < 0x1_0000

  datatype Message = Message(kind: Kind, body: seq<Byte>)

  function HeaderOf(m: Message): (h: seq<Byte>)
    ensures |h| == HEADER
  {
    BigEndian(m.kind, 2) + BigEndian(|m.body| % 0x1_0000_0000, 4)
  }

  /** The bytes one message goes out as. */
  function FrameOf(m: Message): seq<Byte> {
    HeaderOf(m) + m.body
  }

  function Stream(ms: seq<Message>): seq<Byte> {
    if ms == [] then [] else FrameOf(ms[0]) + Stream(ms[1..])
  }

  // -- What a header says ---------------------------------------------------

  function Word16(a: int, b: int): int {
    256 * a + b
  }

  function Word32(a: int, b: int, c: int, d: int): int {
    256 * (256 * (256 * a + b) + c) + d
  }

  function KindOf(h: seq<Byte>): Kind
    requires |h| == HEADER
  {
    Word16(h[0], h[1])
  }

  function LengthOf(h: seq<Byte>): nat
    requires |h| == HEADER
  {
    Word32(h[2], h[3], h[4], h[5])
  }

  lemma HeaderSays(m: Message)
    requires |m.body| < 0x1_0000_0000
    ensures KindOf(HeaderOf(m)) == m.kind && LengthOf(HeaderOf(m)) == |m.body|
  {
    hide BigEndian;
    hide Word16;
    hide Word32;
    PairOfBytes(m.kind);
    FourBytes(|m.body|);
    Split(BigEndian(m.kind, 2), BigEndian(|m.body|, 4));
  }

  lemma Split(k: seq<Byte>, n: seq<Byte>)
    requires |k| == 2 && |n| == 4
    ensures KindOf(k + n) == Word16(k[0], k[1])
    ensures LengthOf(k + n) == Word32(n[0], n[1], n[2], n[3])
  {
  }

  lemma PairOfBytes(k: Kind)
    ensures Word16(BigEndian(k, 2)[0], BigEndian(k, 2)[1]) == k
  {
    TwoBytes(k);
  }

  lemma FourBytes(n: nat)
    requires n < 0x1_0000_0000
    ensures var b := BigEndian(n, 4); Word32(b[0], b[1], b[2], b[3]) == n
  {
    var n1 := n / 256;
    var n2 := n1 / 256;
    var n3 := n2 / 256;
    assert BigEndian(n, 4) == BigEndian(n1, 3) + [n % 256];
    assert BigEndian(n1, 3) == BigEndian(n2, 2) + [n1 % 256];
    assert BigEndian(n2, 2) == BigEndian(n3, 1) + [n2 % 256];
    assert BigEndian(n3, 1) == BigEndian(n3 / 256, 0) + [n3 % 256];
    assert n3 < 256;
  }

  // -- The reader as a machine ----------------------------------------------

  /** One pass of the loop: the sweep wins and the read is dropped, or a read brings
      at most `n` bytes, at least one if any are left. */
  datatype Step = Cancelled | Read(n: nat)

  datatype Failure = Closed | Oversized | ShortBody

  datatype Tap = Tap(held: seq<Byte>, rest: seq<Byte>, decoded: seq<Message>, failed: Option<Failure>)

  /** How many bytes a read brings. */
  function Brought(t: Tap, n: nat): nat
    requires |t.held| < HEADER
  {
    var room := if |t.rest| < HEADER - |t.held| then |t.rest| else HEADER - |t.held|;
    if n == 0 && room > 0 then 1 else if n < room then n else room
  }

  function StepTap(t: Tap, step: Step): (t': Tap)
    requires |t.held| < HEADER
    ensures |t'.held| < HEADER
  {
    if t.failed.Some? || step.Cancelled? then t
    else
      var k := Brought(t, step.n);
      if k == 0 then t.(failed := Some(Closed))
      else
        var held, rest := t.held + t.rest[..k], t.rest[k..];
        if |held| < HEADER then t.(held := held, rest := rest)
        else
          var len := LengthOf(held);
          if len > MAX_FRAME then Tap([], rest, t.decoded, Some(Oversized))
          else if len > |rest| then Tap([], rest, t.decoded, Some(ShortBody))
          else Tap([], rest[len..], t.decoded + [Message(KindOf(held), rest[..len])], None)
  }

  function RunTap(t: Tap, steps: seq<Step>): (t': Tap)
    requires |t.held| < HEADER
    ensures |t'.held| < HEADER
  {
    if steps == [] then t else StepTap(RunTap(t, steps[..|steps| - 1]), steps[|steps| - 1])
  }

  // -- Any chunking, any cancellation ---------------------------------------

  /** What has been decoded is how the messages start, and what is held and still to
      come is exactly the rest of them; the only failure is the far end closing after all. */
  ghost predicate InStep(t: Tap, ms: seq<Message>) {
    && t.decoded <= ms
    && t.held + t.rest == Stream(ms[|t.decoded|..])
    && (t.failed.Some? ==> t.failed == Some(Closed) && t.decoded == ms)
  }

  lemma StreamMore(ms: seq<Message>)
    requires ms != []
    ensures Stream(ms) == HeaderOf(ms[0]) + (ms[0].body + Stream(ms[1..]))
  {
  }

  lemma StepInStep(t: Tap, step: Step, ms: seq<Message>)
    requires |t.held| < HEADER && InStep(t, ms)
    requires forall m :: m in ms ==> |m.body| <= MAX_FRAME
    ensures InStep(StepTap(t, step), ms)
  {
    hide KindOf;
    hide LengthOf;
    hide HeaderOf;
    if t.failed.None? && step.Read? {
      var k := Brought(t, step.n);
      var ahead := ms[|t.decoded|..];
      if ahead == [] {
        assert Stream(ahead) == [];
      } else {
        StreamMore(ahead);
        var m := ahead[0];
        assert m in ms;
        var held, rest := t.held + t.rest[..k], t.rest[k..];
        assert held + rest == t.held + t.rest;
        if |held| == HEADER {
          assert held == (held + rest)[..HEADER] == HeaderOf(m);
          assert rest == (held + rest)[HEADER..] == m.body + Stream(ahead[1..]);
          HeaderSays(m);
          assert rest[..|m.body|] == m.body;
          assert ms[|t.decoded| + 1..] == ahead[1..];
          assert ms[..|t.decoded| + 1] == t.decoded + [m];
        }
      }
    }
  }

  function Begin(bytes: seq<Byte>): Tap {
    Tap([], bytes, [], None)
  }

  lemma {:induction false} RunInStep(ms: seq<Message>, steps: seq<Step>)
    requires forall m :: m in ms ==> |m.body| <= MAX_FRAME
    ensures InStep(RunTap(Begin(Stream(ms)), steps), ms)
  {
    hide StepTap;
    if steps == [] {
      assert ms[0..] == ms;
    } else {
      RunInStep(ms, steps[..|steps| - 1]);
      StepInStep(RunTap(Begin(Stream(ms)), steps[..|steps| - 1]), steps[|steps| - 1], ms);
    }
  }

  lemma StreamEmpty(ms: seq<Message>)
    requires Stream(ms) == []
    ensures ms == []
  {
  }

  /** However the bytes are divided into reads and wherever the reads are cancelled, the
      messages come out exactly as they went in: a start of them at every moment, all of
      them once the bytes are used up, and no failure but the end of the stream. */
  lemma AnyChunkingDecodes(ms: seq<Message>, steps: seq<Step>)
    requires forall m :: m in ms ==> |m.body| <= MAX_FRAME
    ensures var t := RunTap(Begin(Stream(ms)), steps);
            && t.decoded <= ms
            && (t.held + t.rest == [] <==> t.decoded == ms)
            && (t.failed.Some? ==> t.failed == Some(Closed) && t.decoded == ms)
  {
    hide RunTap;
    RunInStep(ms, steps);
    var t := RunTap(Begin(Stream(ms)), steps);
    if t.held + t.rest == [] {
      StreamEmpty(ms[|t.decoded|..]);
    }
  }

  /** Every read that is not cancelled makes progress, so it ends. */
  lemma ReadsProgress(t: Tap, n: nat)
    requires |t.held| < HEADER && t.failed.None? && t.rest != []
    ensures |StepTap(t, Read(n)).rest| < |t.rest|
  {
  }

  /** A frame that claims more than 8 MiB ends the tap before any of its body is read, and
      one longer than what is left ends it too; nothing decoded before is lost. */
  lemma BadFramesEndTheTap(t: Tap, n: nat)
    requires |t.held| < 6 && t.failed.None? && n >= 6 && |t.held + t.rest| >= 6
    ensures var t' := StepTap(t, Read(n));
            var bytes := t.held + t.rest;
            var kind: int := 256 * (bytes[0] as int) + bytes[1] as int;
            var len: int :=
              256 * (256 * (256 * (bytes[2] as int) + bytes[3] as int) + bytes[4] as int) + bytes[5] as int;
            && (t'.failed == Some(Oversized) <==> len > 8_388_608)
            && (t'.failed == Some(ShortBody) <==> len <= 8_388_608 && len > |bytes| - 6)
            && t.decoded <= t'.decoded
            && (t'.failed.None? ==> t'.decoded == t.decoded + [Message(kind, bytes[6..6 + len])]
                                    && t'.held == [] && t'.rest == bytes[6 + len..])
  {
    var bytes := t.held + t.rest;
    var k := Brought(t, n);
    assert t.held + t.rest[..k] == bytes[..6];
    assert t.rest[k..] == bytes[6..];
    var len := LengthOf(bytes[..6]);
    if len <= |bytes| - 6 {
      assert bytes[6..][..len] == bytes[6..6 + len] && bytes[6..][len..] == bytes[6 + len..];
    }
  }

  /** Once it has ended it stays so. */
  lemma {:induction false} FailedStays(t: Tap, steps: seq<Step>)
    requires |t.held| < 6 && t.failed.Some?
    ensures RunTap(t, steps) == t
  {
    if steps != [] {
      FailedStays(t, steps[..|steps| - 1]);
    }
  }

  function ReadsIn(steps: seq<Step>): nat {
    if steps == [] then 0
    else ReadsIn(steps[..|steps| - 1]) + (if steps[|steps| - 1].Read? then 1 else 0)
  }

  /** Each read so far has used up a byte, unless there was none left. */
  lemma {:induction false} ReadsUseUp(ms: seq<Message>, steps: seq<Step>)
    requires forall m :: m in ms ==> |m.body| <= MAX_FRAME
    ensures var t := RunTap(Begin(Stream(ms)), steps);
            t.decoded == ms || |t.rest| + ReadsIn(steps) <= |Stream(ms)|
  {
    hide StepTap;
    hide Stream;
    if steps != [] {
      var init, last := steps[..|steps| - 1], steps[|steps| - 1];
      var t := RunTap(Begin(Stream(ms)), init);
      ReadsUseUp(ms, init);
      RunInStep(ms, init);
      RunInStep(ms, steps);
      if last.Cancelled? || t.decoded == ms {
        DecodedStays(t, last);
      } else if t.rest == [] {
        LeftoverIsAHeader(ms[|t.decoded|..]);
      } else {
        ReadsProgress(t, last.n);
      }
    }
  }

  lemma DecodedStays(t: Tap, step: Step)
    requires |t.held| < HEADER
    ensures t.decoded <= StepTap(t, step).decoded
    ensures step.Cancelled? ==> StepTap(t, step) == t
  {
  }

  lemma LeftoverIsAHeader(ms: seq<Message>)
    ensures ms != [] ==> |Stream(ms)| >= HEADER
  {
  }

  /** So enough reads decode everything, whatever they bring and however many more
      are cancelled in between. */
  lemma EnoughReadsDecodeAll(ms: seq<Message>, steps: seq<Step>)
    requires forall m :: m in ms ==> |m.body| <= MAX_FRAME
    requires ReadsIn(steps) >= |Stream(ms)|
    ensures RunTap(Begin(Stream(ms)), steps).decoded == ms
  {
    hide RunTap;
    hide Stream;
    var t := RunTap(Begin(Stream(ms)), steps);
    ReadsUseUp(ms, steps);
    RunInStep(ms, steps);
    if t.decoded != ms {
      LeftoverIsAHeader(ms[|t.decoded|..]);
    }
  }

  // -- The code -------------------------------------------------------------

  method WriteFrame(kind: Kind, body: seq<Byte>) returns (out: seq<Byte>)
    ensures out == FrameOf(Message(kind, body))
  {
    var bytes := new ByteVec();
    bytes.Extend(BigEndian(kind, 2));
    bytes.Extend(BigEndian(|body| % 0x1_0000_0000, 4));
    bytes.Extend(body);
    out := bytes.bytes;
  }

  /** What one read of a header came to. */
  datatype HeaderRead = Short | Whole(kind: Kind, len: nat) | Failed(why: Failure)

  class Header {
    const buf: array<Byte>
    var fill: nat

    ghost predicate Valid()
      reads this
    {
      buf.Length == HEADER && fill < HEADER
    }

    ghost function Held(): seq<Byte>
      requires Valid()
      reads this, buf
    {
      buf[..fill]
    }

    constructor ()
      ensures Valid() && fresh(buf) && Held() == []
    {
      buf := new Byte[HEADER](_ => 0);
      fill := 0;
    }

    /** One cancellable step; `chunk` is what the read brought, empty when the far end has gone. */
    method ReadFrom(chunk: seq<Byte>) returns (r: HeaderRead)
      requires Valid() && |chunk| <= HEADER - fill
      modifies this, buf
      ensures Valid()
      ensures chunk == [] ==> r == Failed(Closed) && Held() == old(Held())
      ensures var held := old(Held()) + chunk;
              chunk != [] ==>
                if |held| < HEADER then r == Short && Held() == held
                else Held() == [] && r == if LengthOf(held) > MAX_FRAME then Failed(Oversized)
                                          else Whole(KindOf(held), LengthOf(held))
    {
      if chunk == [] {
        return Failed(Closed);
      }
      ghost var held := Held() + chunk;
      for i := 0 to |chunk|
        invariant fill == old(fill)
        invariant buf[..fill + i] == held[..fill + i]
      {
        buf[fill + i] := chunk[i];
      }
      fill := fill + |chunk|;
      assert buf[..fill] == held;
      if fill < HEADER {
        return Short;
      }
      fill := 0;
      var kind := Word16(buf[0], buf[1]);
      var len := Word32(buf[2], buf[3], buf[4], buf[5]);
      if len > MAX_FRAME {
        return Failed(Oversized);
      }
      return Whole(kind, len);
    }
  }

  /** The read loop of the tap, over a stream that arrives as the steps say. */
  method ReadLoop(bytes: seq<Byte>, steps: seq<Step>) returns (decoded: seq<Message>, failed: Option<Failure>)
    ensures decoded == RunTap(Begin(bytes), steps).decoded && failed == RunTap(Begin(bytes), steps).failed
  {
    hide KindOf;
    hide LengthOf;
    var header := new Header();
    var rest := bytes;
    decoded, failed := [], None;
    for i := 0 to |steps|
      invariant header.Valid() && fresh(header) && fresh(header.buf)
      invariant RunTap(Begin(bytes), steps[..i]) == Tap(header.Held(), rest, decoded, failed)
    {
      assert steps[..i + 1][..i] == steps[..i];
      if failed.None? && steps[i].Read? {
        ghost var t := Tap(header.Held(), rest, decoded, failed);
        var room := if |rest| < HEADER - header.fill then |rest| else HEADER - header.fill;
        var n := if steps[i].n == 0 && room > 0 then 1 else if steps[i].n < room then steps[i].n else room;
        assert n == Brought(t, steps[i].n);
        var read := header.ReadFrom(rest[..n]);
        rest := rest[n..];
        match read {
          case Failed(why) => failed := Some(why);
          case Short =>
          case Whole(kind, len) =>
            if len > |rest| {
              failed := Some(ShortBody);
            } else {
              decoded := decoded + [Message(kind, rest[..len])];
              rest := rest[len..];
            }
        }
      }
    }
    assert steps[..|steps|] == steps;
  }
}
