/**
 * One rendering's chain of hops over a whole transmission: what a listener hears does
 * not depend on how the samples were cut into packets.
 */
module Hops {
  import opened Types
  import opened Lanes
  import opened AmMixing
  import opened Decimation
  import opened Rendering

  // -- Sample by sample, frame by frame -------------------------------------

  /** Framing loses and moves nothing. */
  lemma {:induction false} FramesJoinUp(samples: seq<Sample>, spf: nat, n: nat)
    requires spf * n <= |samples|
    ensures Flatten(FramesOf(samples, spf, n)) == samples[..spf * n]
  {
    if n > 0 {
      Below(spf, n);
      FramesJoinUp(samples, spf, n - 1);
      var fs := FramesOf(samples, spf, n);
      assert fs[..n - 1] == FramesOf(samples, spf, n - 1);
    }
  }

  /** A frame is conditioned after everything before it, and nothing after it. */
  lemma {:induction false} ConditionedAt(condition: Condition, front: seq<Frame>, raws: seq<Frame>, i: nat)
    requires i < |raws|
    ensures Conditioned(condition, front, raws)[i] == condition(front + raws[..i + 1])
  {
    if i < |raws| - 1 {
      ConditionedAt(condition, front, raws[..|raws| - 1], i);
      assert raws[..|raws| - 1][..i + 1] == raws[..i + 1];
    } else {
      assert raws[..i + 1] == raws;
    }
  }

  /** And a hop carries it so. */
  lemma {:induction false} HopAt(render: Render, leg: Leg, inputs: seq<Frame>, i: nat)
    requires i < |inputs|
    ensures Hop(render, leg, inputs)[i] == render(leg.sink, leg.output, leg.carried + inputs[..i + 1])
  {
    if i < |inputs| - 1 {
      HopAt(render, leg, inputs[..|inputs| - 1], i);
      assert inputs[..|inputs| - 1][..i + 1] == inputs[..i + 1];
    } else {
      assert inputs[..i + 1] == inputs;
    }
  }

  /** The speaker's own hop belongs to one link: kept while mode, lane and side agree, and
      built anew otherwise. It never ends in a loudspeaker. */
  lemma BridgeIsTheSpeakers(bridge: Option<Leg>, src: Sink)
    requires bridge.Some? ==> !bridge.value.output
    ensures var b := BridgeFor(bridge, src);
            && !b.output && b.sink.mode == src.mode && b.sink.bridged == src.bridged
            && LaneOf(b.sink.quality) == LaneOf(src.quality)
            && b == if bridge.Some? && bridge.value.sink.mode == src.mode && bridge.value.sink.bridged == src.bridged
                         && LaneOf(bridge.value.sink.quality) == LaneOf(src.quality) then bridge.value
                    else Leg(src, false, [])
  {
  }

  // -- One rendering's chain ------------------------------------------------

  /** Samples short of a frame, the front end, the speaker's hop and the listener's. */
  datatype Chain = Chain(pending: seq<Sample>, front: seq<Frame>, bridge: Leg, leg: Leg)

  /** These whole frames through the chain, with so much left over. Across a patch the
      listener's hop is fed what the speaker's put out. */
  function FeedFrames(render: Render, condition: Condition, bridged: bool, c: Chain, raws: seq<Frame>, left: seq<Sample>):
    (seq<Frame>, Chain)
  {
    var clean := Conditioned(condition, c.front, raws);
    var fed := if bridged then Hop(render, c.bridge, clean) else clean;
    (Hop(render, c.leg, fed),
     Chain(left, c.front + raws,
           if bridged then c.bridge.(carried := c.bridge.carried + clean) else c.bridge,
           c.leg.(carried := c.leg.carried + fed)))
  }

  /** What comes out of the chain when these samples go in, and how it is left. */
  function Feed(render: Render, condition: Condition, spf: nat, bridged: bool, c: Chain, samples: seq<Sample>):
    (r: (seq<Frame>, Chain))
    requires spf > 0
    ensures |r.1.pending| < spf
  {
    var all := c.pending + samples;
    var n := WholeCount(|all|, spf);
    FeedFrames(render, condition, bridged, c, FramesOf(all, spf, n), all[spf * n..])
  }

  lemma FeedIs(render: Render, condition: Condition, spf: nat, bridged: bool, c: Chain, samples: seq<Sample>)
    requires spf > 0
    ensures var all := c.pending + samples;
            var n := WholeCount(|all|, spf);
            Feed(render, condition, spf, bridged, c, samples) ==
              FeedFrames(render, condition, bridged, c, FramesOf(all, spf, n), all[spf * n..])
  {
  }

  lemma {:induction false} ConditionedSplits(condition: Condition, front: seq<Frame>, a: seq<Frame>, b: seq<Frame>)
    ensures Conditioned(condition, front, a + b) == Conditioned(condition, front, a) + Conditioned(condition, front + a, b)
  {
    if b == [] {
      assert a + b == a;
    } else {
      assert (a + b)[..|a + b| - 1] == a + b[..|b| - 1];
      ConditionedSplits(condition, front, a, b[..|b| - 1]);
      assert front + (a + b) == front + a + b;
    }
  }

  lemma {:induction false} HopSplits(render: Render, leg: Leg, a: seq<Frame>, b: seq<Frame>)
    ensures Hop(render, leg, a + b) == Hop(render, leg, a) + Hop(render, leg.(carried := leg.carried + a), b)
  {
    if b == [] {
      assert a + b == a;
    } else {
      assert (a + b)[..|a + b| - 1] == a + b[..|b| - 1];
      HopSplits(render, leg, a, b[..|b| - 1]);
      assert leg.carried + (a + b) == leg.carried + a + b;
    }
  }

  lemma Distributes(spf: nat, a: nat, b: nat)
    ensures spf * (a + b) == spf * a + spf * b
  {
  }

  /** Frames of the whole are the frames of the start, then of what it left with the rest. */
  lemma {:induction false} FramesSplit(samples: seq<Sample>, spf: nat, a: nat, b: nat)
    requires spf * (a + b) <= |samples| && spf * a <= |samples|
    requires spf * b <= |samples[spf * a..]|
    ensures FramesOf(samples, spf, a + b) == FramesOf(samples, spf, a) + FramesOf(samples[spf * a..], spf, b)
  {
    if b > 0 {
      Below(spf, b);
      Below(spf, a + b);
      Distributes(spf, a, b);
      Distributes(spf, a, b - 1);
      FramesSplit(samples, spf, a, b - 1);
      assert samples[spf * a..][spf * (b - 1)..spf * b] == samples[spf * (a + b - 1)..spf * (a + b)];
    }
  }

  lemma {:induction false} FramesIgnoreTheFuture(a: seq<Sample>, b: seq<Sample>, spf: nat, n: nat)
    requires spf * n <= |a|
    ensures spf * n <= |a + b| && FramesOf(a + b, spf, n) == FramesOf(a, spf, n)
  {
    if n > 0 {
      Below(spf, n);
      FramesIgnoreTheFuture(a, b, spf, n - 1);
      assert (a + b)[spf * (n - 1)..spf * n] == a[spf * (n - 1)..spf * n];
    }
  }

  lemma WholeCountsAdd(a: nat, more: nat, spf: nat)
    requires spf > 0
    ensures var n := WholeCount(a, spf);
            WholeCount(a + more, spf) == n + WholeCount(a - spf * n + more, spf)
  {
    var n := WholeCount(a, spf);
    var k := WholeCount(a - spf * n + more, spf);
    Distributes(spf, n, k);
    WholeFrames(a + more, spf, n + k);
  }

  /** One frame, as each listener gets it: on the speaker's side straight over the hop to the
      listener, across a patch over the speaker's own hop first. */
  lemma OneHopOrTwo(render: Render, condition: Condition, c: Chain, raw: Frame, left: seq<Sample>)
    ensures var clean := condition(c.front + [raw]);
            var far := render(c.bridge.sink, c.bridge.output, c.bridge.carried + [clean]);
            var near, across := FeedFrames(render, condition, false, c, [raw], left),
                                FeedFrames(render, condition, true, c, [raw], left);
            && near.0 == [render(c.leg.sink, c.leg.output, c.leg.carried + [clean])]
            && across.0 == [render(c.leg.sink, c.leg.output, c.leg.carried + [far])]
            && near.1.leg.carried == c.leg.carried + [clean] && across.1.leg.carried == c.leg.carried + [far]
            && across.1.bridge.carried == c.bridge.carried + [clean]
  {
    var clean := condition(c.front + [raw]);
    assert Conditioned(condition, c.front, [raw]) == [clean] by {
      ConditionedAt(condition, c.front, [raw], 0);
    }
    HopAt(render, c.bridge, [clean], 0);
    var far := render(c.bridge.sink, c.bridge.output, c.bridge.carried + [clean]);
    assert [clean][..1] == [clean] && Hop(render, c.bridge, [clean]) == [far];
    HopAt(render, c.leg, [clean], 0);
    HopAt(render, c.leg, [far], 0);
    assert [far][..1] == [far];
  }

  /** Two lots of frames are as good as one. */
  lemma FeedTwice(render: Render, condition: Condition, bridged: bool, c: Chain, r1: seq<Frame>, r2: seq<Frame>,
                  left1: seq<Sample>, left2: seq<Sample>)
    ensures var first := FeedFrames(render, condition, bridged, c, r1, left1);
            var second := FeedFrames(render, condition, bridged, first.1, r2, left2);
            && first.1.pending == left1
            && FeedFrames(render, condition, bridged, c, r1 + r2, left2) == (first.0 + second.0, second.1)
  {
    hide Conditioned;
    hide Hop;
    SplitThrough(render, condition, bridged, c, r1, r2);
  }

  /** Two packets are as good as one. */
  lemma TwoFeedsAreOne(render: Render, condition: Condition, spf: nat, bridged: bool, c: Chain,
                       a: seq<Sample>, b: seq<Sample>)
    requires spf > 0
    ensures var first := Feed(render, condition, spf, bridged, c, a);
            var second := Feed(render, condition, spf, bridged, first.1, b);
            Feed(render, condition, spf, bridged, c, a + b) == (first.0 + second.0, second.1)
  {
    hide FramesOf;
    hide Conditioned;
    hide Hop;
    hide WholeCount;
    hide FeedFrames;
    var start := c.pending + a;
    var n := WholeCount(|start|, spf);
    var left := start[spf * n..] + b;
    var k := WholeCount(|left|, spf);
    var whole := c.pending + (a + b);
    assert whole == start + b;
    assert whole[spf * n..] == left;
    WholeCountsAdd(|start|, |b|, spf);
    Distributes(spf, n, k);
    assert whole[spf * (n + k)..] == left[spf * k..];
    FramesSplit(whole, spf, n, k);
    FramesIgnoreTheFuture(start, b, spf, n);
    var r1, r2 := FramesOf(start, spf, n), FramesOf(left, spf, k);
    assert FramesOf(whole, spf, n + k) == r1 + r2;
    FeedTwice(render, condition, bridged, c, r1, r2, start[spf * n..], left[spf * k..]);
    FeedIs(render, condition, spf, bridged, c, a);
  }

  /** The same, frame by frame. */
  lemma SplitThrough(render: Render, condition: Condition, bridged: bool, c: Chain, r1: seq<Frame>, r2: seq<Frame>)
    ensures var c1, c2 := Conditioned(condition, c.front, r1), Conditioned(condition, c.front + r1, r2);
            var b' := c.bridge.(carried := c.bridge.carried + c1);
            var i1 := if bridged then Hop(render, c.bridge, c1) else c1;
            var i2 := if bridged then Hop(render, b', c2) else c2;
            var both := if bridged then Hop(render, c.bridge, c1 + c2) else c1 + c2;
            && Conditioned(condition, c.front, r1 + r2) == c1 + c2
            && both == i1 + i2
            && Hop(render, c.leg, i1 + i2) ==
                 Hop(render, c.leg, i1) + Hop(render, c.leg.(carried := c.leg.carried + i1), i2)
            && c.front + (r1 + r2) == c.front + r1 + r2
            && c.bridge.carried + (c1 + c2) == c.bridge.carried + c1 + c2
            && c.leg.carried + (i1 + i2) == c.leg.carried + i1 + i2
  {
    hide Conditioned;
    hide Hop;
    var c1, c2 := Conditioned(condition, c.front, r1), Conditioned(condition, c.front + r1, r2);
    ConditionedSplits(condition, c.front, r1, r2);
    HopSplits(render, c.bridge, c1, c2);
    var i1 := if bridged then Hop(render, c.bridge, c1) else c1;
    var i2 := if bridged then Hop(render, c.bridge.(carried := c.bridge.carried + c1), c2) else c2;
    HopSplits(render, c.leg, i1, i2);
  }

  /** A transmission, packet by packet. */
  function FeedAll(render: Render, condition: Condition, spf: nat, bridged: bool, c: Chain, packets: seq<seq<Sample>>):
    (seq<Frame>, Chain)
    requires spf > 0
  {
    if packets == [] then ([], c)
    else
      var before := FeedAll(render, condition, spf, bridged, c, packets[..|packets| - 1]);
      var last := Feed(render, condition, spf, bridged, before.1, packets[|packets| - 1]);
      (before.0 + last.0, last.1)
  }

  lemma NothingFed(render: Render, condition: Condition, spf: nat, bridged: bool, c: Chain)
    requires spf > 0 && |c.pending| < spf
    ensures Feed(render, condition, spf, bridged, c, []) == ([], c)
  {
    var all := c.pending + [];
    assert all == c.pending;
    WholeFrames(|all|, spf, 0);
    assert c.front + [] == c.front && c.bridge.carried + [] == c.bridge.carried && c.leg.carried + [] == c.leg.carried;
  }

  /** However a transmission is cut into packets, a listener hears the same frames. */
  lemma {:induction false} AnyPacketsSameAudio(render: Render, condition: Condition, spf: nat, bridged: bool, c: Chain,
                                               packets: seq<seq<Sample>>)
    requires spf > 0 && |c.pending| < spf
    ensures FeedAll(render, condition, spf, bridged, c, packets) ==
            Feed(render, condition, spf, bridged, c, Flatten(packets))
  {
    hide Feed;
    if packets == [] {
      NothingFed(render, condition, spf, bridged, c);
    } else {
      var front, last := packets[..|packets| - 1], packets[|packets| - 1];
      AnyPacketsSameAudio(render, condition, spf, bridged, c, front);
      TwoFeedsAreOne(render, condition, spf, bridged, c, Flatten(front), last);
    }
  }

  // -- From the microphone --------------------------------------------------

  /** What each wide-band packet adds at 8 kHz. */
  function Narrowed(taps: seq<real>, wides: seq<seq<Sample>>): seq<seq<Sample>>
    requires |taps| == TAPS
  {
    if wides == [] then []
    else
      var front := wides[..|wides| - 1];
      Narrowed(taps, front) + [Emitted(taps, Concat(front), wides[|wides| - 1])]
  }

  lemma {:induction false} NarrowedJoinsUp(taps: seq<real>, wides: seq<seq<Sample>>)
    requires |taps| == TAPS
    ensures Flatten(Narrowed(taps, wides)) == Streamed(taps, wides)
  {
    hide Emitted;
    if wides != [] {
      var front := wides[..|wides| - 1];
      NarrowedJoinsUp(taps, front);
      var all := Narrowed(taps, wides);
      assert all[..|all| - 1] == Narrowed(taps, front);
    }
  }

  /** From the first sample at 48 kHz to the listener's hop: packets leave no trace, and what
      is heard is the chain run once over the filtered whole. */
  lemma PacketsLeaveNoTrace(render: Render, condition: Condition, spf: nat, bridged: bool, taps: seq<real>, c: Chain,
                            wides: seq<seq<Sample>>)
    requires spf > 0 && |c.pending| < spf && |taps| == TAPS
    ensures FeedAll(render, condition, spf, bridged, c, Narrowed(taps, wides)) ==
            Feed(render, condition, spf, bridged, c, Batch(taps, Concat(wides)))
  {
    hide Feed;
    hide FeedAll;
    AnyPacketsSameAudio(render, condition, spf, bridged, c, Narrowed(taps, wides));
    NarrowedJoinsUp(taps, wides);
    AnyChunkingIsTheBatch(taps, wides);
  }
}
