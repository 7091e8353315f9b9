/**
 * One talker's chain: samples gathered into whole vocoder frames, conditioned once,
 * and carried over one radio hop per rendering in use. A hop is opaque: whatever it
 * was built for and everything it has carried decide what comes out of it.
 */
module Rendering {
  import opened Types
  import opened Lanes
  import opened Audience
  import opened AmMixing

  type Frame = seq<Sample>

  /** How one listener is reached: the modulation, the link and the side of a patch. */
  datatype Sink = Sink(mode: Mode, quality: Quality, bridged: bool)

  /** A hop: its link, whether it ends in a loudspeaker, and every frame it has carried. */
  datatype Leg = Leg(sink: Sink, output: bool, carried: seq<Frame>)

  function KeyOf(s: Sink): LegKey {
    LegKey(s.mode, LaneOf(s.quality), s.bridged)
  }

  function SinkOf(l: Listener): Sink {
    Sink(l.mode, l.quality, l.bridged)
  }

  /** A digital link under the decoding floor; an analogue one is never this bad. */
  predicate NothingArrives(s: Sink) {
    s.mode == P25 && Muted(LaneOf(s.quality))
  }

  /** Being muted is a property of the rendering, so nobody served shares one with it. */
  lemma MutedByKey(a: Sink, b: Sink)
    requires KeyOf(a) == KeyOf(b)
    ensures NothingArrives(a) <==> NothingArrives(b)
  {
  }

  /** Two listeners share a rendering if and only if they are reached the same way: one
      modulation, one lane and one side of the patch. */
  lemma SharedIff(a: Sink, b: Sink)
    ensures KeyOf(a) == KeyOf(b) <==> a.mode == b.mode && a.bridged == b.bridged && LaneOf(a.quality) == LaneOf(b.quality)
  {
  }

  /** Nothing reaches a digital listener whose link is under eight; everybody else is served. */
  lemma NothingArrivesIff(s: Sink)
    ensures NothingArrives(s) <==> s.mode == P25 && s.quality < 8
  {
  }

  // -- What a push renders --------------------------------------------------

  type Render = (Sink, bool, seq<Frame>) -> Frame
  type Condition = seq<Frame> -> Frame

  /** Both keep a frame's length; nothing else is assumed of them. */
  ghost predicate KeepsLength(render: Render, condition: Condition) {
    && (forall s, o, fs :: |fs| > 0 ==> |render(s, o, fs)| == |fs[|fs| - 1]|)
    && (forall fs :: |fs| > 0 ==> |condition(fs)| == |fs[|fs| - 1]|)
  }

  /** How many whole frames are in hand. */
  function WholeCount(len: nat, spf: nat): (n: nat)
    requires spf > 0
    ensures spf * n <= len < spf * n + spf
  {
    len / spf
  }

  /** The first `n` whole frames. */
  function FramesOf(samples: seq<Sample>, spf: nat, n: nat): (fs: seq<Frame>)
    requires spf * n <= |samples|
    ensures |fs| == n
    ensures forall i :: 0 <= i < n ==> |fs[i]| == spf
  {
    if n == 0 then []
    else
      Below(spf, n);
      FramesOf(samples, spf, n - 1) + [samples[spf * (n - 1)..spf * n]]
  }

  lemma Below(spf: nat, n: nat)
    requires n > 0
    ensures spf * (n - 1) + spf == spf * n && 0 <= spf * (n - 1)
  {
  }

  lemma NoFrames(samples: seq<Sample>, spf: nat)
    ensures FramesOf(samples, spf, 0) == []
  {
  }

  lemma OneMoreFrame(samples: seq<Sample>, spf: nat, n: nat)
    requires spf > 0 && spf * n <= |samples| && |samples[spf * n..]| >= spf
    ensures spf * (n + 1) <= |samples|
    ensures FramesOf(samples, spf, n + 1) == FramesOf(samples, spf, n) + [samples[spf * n..][..spf]]
    ensures samples[spf * n..][spf..] == samples[spf * (n + 1)..]
  {
    Below(spf, n + 1);
    assert samples[spf * n..][..spf] == samples[spf * n..spf * (n + 1)];
  }

  lemma WholeFrames(len: nat, spf: nat, n: nat)
    requires spf > 0 && spf * n <= len < spf * n + spf
    ensures n == WholeCount(len, spf)
  {
    var q := WholeCount(len, spf);
    if q < n {
      Apart(spf, q, n);
    }
    if n < q {
      Apart(spf, n, q);
    }
  }

  lemma {:induction false} Apart(spf: nat, a: nat, b: nat)
    requires a < b
    ensures spf * a + spf <= spf * b
    decreases b
  {
    Below(spf, b);
    if a + 1 < b {
      Apart(spf, a, b - 1);
    }
  }

  function Conditioned(condition: Condition, front: seq<Frame>, raws: seq<Frame>): (fs: seq<Frame>)
    ensures |fs| == |raws|
  {
    if raws == [] then []
    else Conditioned(condition, front, raws[..|raws| - 1]) + [condition(front + raws)]
  }

  function Hop(render: Render, leg: Leg, inputs: seq<Frame>): (fs: seq<Frame>)
    ensures |fs| == |inputs|
  {
    if inputs == [] then []
    else Hop(render, leg, inputs[..|inputs| - 1]) + [render(leg.sink, leg.output, leg.carried + inputs)]
  }

  function Flatten(fs: seq<Frame>): seq<Sample> {
    if fs == [] then [] else Flatten(fs[..|fs| - 1]) + fs[|fs| - 1]
  }

  /** Rebuilt whenever the speaker's own rendering changes. */
  function BridgeFor(bridge: Option<Leg>, src: Sink): Leg {
    if bridge.Some? && KeyOf(bridge.value.sink) == KeyOf(src) then bridge.value else Leg(src, false, [])
  }

  function LegFor(legs: map<LegKey, Leg>, key: LegKey): Leg {
    if key in legs then legs[key] else Leg(Sink(key.mode, key.lane, key.bridged), true, [])
  }

  /** What a hop is fed: the far side of a patch hears the speaker's own hop. */
  function Inputs(render: Render, bridge: Leg, clean: seq<Frame>, key: LegKey): seq<Frame> {
    if key.bridged then Hop(render, bridge, clean) else clean
  }

  /** The audio of one rendering: a matter of that rendering alone, not of who else listens. */
  function Buffer(render: Render, legs: map<LegKey, Leg>, bridge: Leg, clean: seq<Frame>, key: LegKey): seq<Sample> {
    Flatten(Hop(render, LegFor(legs, key), Inputs(render, bridge, clean, key)))
  }

  ghost predicate AllLong(fs: seq<Frame>, spf: nat) {
    forall i :: 0 <= i < |fs| ==> |fs[i]| == spf
  }

  lemma {:induction false} ConditionedLong(render: Render, condition: Condition, front: seq<Frame>,
                                             raws: seq<Frame>, spf: nat)
    requires KeepsLength(render, condition) && AllLong(raws, spf)
    ensures AllLong(Conditioned(condition, front, raws), spf)
  {
    if raws != [] {
      ConditionedLong(render, condition, front, raws[..|raws| - 1], spf);
      assert (front + raws)[|front + raws| - 1] == raws[|raws| - 1];
    }
  }

  lemma {:induction false} HopLong(render: Render, condition: Condition, leg: Leg, inputs: seq<Frame>, spf: nat)
    requires KeepsLength(render, condition) && AllLong(inputs, spf)
    ensures AllLong(Hop(render, leg, inputs), spf)
  {
    if inputs != [] {
      HopLong(render, condition, leg, inputs[..|inputs| - 1], spf);
      assert (leg.carried + inputs)[|leg.carried + inputs| - 1] == inputs[|inputs| - 1];
    }
  }

  lemma {:induction false} FlattenLong(fs: seq<Frame>, spf: nat)
    requires AllLong(fs, spf)
    ensures |Flatten(fs)| == spf * |fs|
  {
    if fs != [] {
      FlattenLong(fs[..|fs| - 1], spf);
      Below(spf, |fs|);
    }
  }

  /** Every rendering's buffer is the same whole number of frames long. */
  lemma BufferLong(render: Render, condition: Condition, legs: map<LegKey, Leg>, bridge: Leg, clean: seq<Frame>,
                   key: LegKey, spf: nat)
    requires KeepsLength(render, condition) && AllLong(clean, spf)
    ensures |Buffer(render, legs, bridge, clean, key)| == spf * |clean|
  {
    HopLong(render, condition, bridge, clean, spf);
    var inputs := Inputs(render, bridge, clean, key);
    HopLong(render, condition, LegFor(legs, key), inputs, spf);
    FlattenLong(Hop(render, LegFor(legs, key), inputs), spf);
  }

  // -- Who is sent what -----------------------------------------------------

  datatype Packet = Packet(to: ClientId, pcm: seq<Sample>)

  function Received(sent: seq<Packet>, c: ClientId): seq<seq<Sample>> {
    if sent == [] then []
    else
      var front := Received(sent[..|sent| - 1], c);
      if sent[|sent| - 1].to == c then front + [sent[|sent| - 1].pcm] else front
  }

  /** The buffers with audio in them under one key, in order. */
  function Matching(lanes: AmMixing.Lanes, key: LegKey): seq<seq<Sample>> {
    if lanes == [] then []
    else
      var front := Matching(lanes[..|lanes| - 1], key);
      var last := lanes[|lanes| - 1];
      if last.0 == key && last.1 != [] then front + [last.1] else front
  }

  lemma {:induction false} NothingMatches(lanes: AmMixing.Lanes, key: LegKey)
    requires forall i :: 0 <= i < |lanes| && lanes[i].1 != [] ==> lanes[i].0 != key
    ensures Matching(lanes, key) == []
  {
    if lanes != [] {
      NothingMatches(lanes[..|lanes| - 1], key);
    }
  }

  /** With distinct keys there is at most one, and it is the one under the key. */
  lemma {:induction false} OneMatches(lanes: AmMixing.Lanes, key: LegKey, at: nat)
    requires forall i, j :: 0 <= i < j < |lanes| ==> lanes[i].0 != lanes[j].0
    requires at < |lanes| && lanes[at].0 == key && lanes[at].1 != []
    ensures Matching(lanes, key) == [lanes[at].1]
  {
    var front := lanes[..|lanes| - 1];
    if at == |lanes| - 1 {
      NothingMatches(front, key);
    } else {
      OneMatches(front, key, at);
    }
  }

  lemma ReceivedMore(sent: seq<Packet>, p: Packet, c: ClientId)
    ensures Received(sent + [p], c) == if p.to == c then Received(sent, c) + [p.pcm] else Received(sent, c)
  {
    assert (sent + [p])[..|sent|] == sent;
  }

  lemma MatchingMore(lanes: AmMixing.Lanes, i: nat, key: LegKey)
    requires i < |lanes|
    ensures Matching(lanes[..i + 1], key) ==
            if lanes[i].0 == key && lanes[i].1 != [] then Matching(lanes[..i], key) + [lanes[i].1]
            else Matching(lanes[..i], key)
  {
    assert lanes[..i + 1][..i] == lanes[..i];
  }

  ghost predicate DistinctClients(listeners: seq<Listener>) {
    forall i, j :: 0 <= i < j < |listeners| ==> listeners[i].client != listeners[j].client
  }

  /** Each listener has received exactly what these lanes hold for its rendering, nobody else anything. */
  ghost predicate Delivered(sent: seq<Packet>, lanes: AmMixing.Lanes, listeners: seq<Listener>) {
    && (forall m :: 0 <= m < |listeners| ==>
          Received(sent, listeners[m].client) == Matching(lanes, KeyOf(SinkOf(listeners[m]))))
    && (forall c :: (forall m :: 0 <= m < |listeners| ==> listeners[m].client != c) ==> Received(sent, c) == [])
  }

  /** One buffer, to every listener on its rendering. */
  method DeliverOne(key: LegKey, pcm: seq<Sample>, listeners: seq<Listener>, before: seq<Packet>)
    returns (sent: seq<Packet>)
    requires DistinctClients(listeners)
    ensures forall m :: 0 <= m < |listeners| ==>
      var c := listeners[m].client;
      Received(sent, c) ==
        if KeyOf(SinkOf(listeners[m])) == key then Received(before, c) + [pcm] else Received(before, c)
    ensures forall c :: (forall m :: 0 <= m < |listeners| ==> listeners[m].client != c) ==>
      Received(sent, c) == Received(before, c)
  {
    hide Received;
    hide KeyOf;
    sent := before;
    for j := 0 to |listeners|
      invariant forall m :: 0 <= m < |listeners| ==>
        var c := listeners[m].client;
        Received(sent, c) ==
          if m < j && KeyOf(SinkOf(listeners[m])) == key then Received(before, c) + [pcm] else Received(before, c)
      invariant forall c :: (forall m :: 0 <= m < |listeners| ==> listeners[m].client != c) ==>
        Received(sent, c) == Received(before, c)
    {
      if KeyOf(SinkOf(listeners[j])) == key {
        var packet := Packet(listeners[j].client, pcm);
        forall c { ReceivedMore(sent, packet, c); }
        sent := sent + [packet];
      }
    }
  }

  /** The loop every sender runs: each buffer with audio to each listener on its rendering. */
  method Deliver(lanes: AmMixing.Lanes, listeners: seq<Listener>) returns (sent: seq<Packet>)
    requires DistinctClients(listeners)
    ensures Delivered(sent, lanes, listeners)
  {
    hide Received;
    hide KeyOf;
    hide Matching;
    sent := [];
    NothingYet(listeners);
    for i := 0 to |lanes|
      invariant Delivered(sent, lanes[..i], listeners)
    {
      forall m | 0 <= m < |listeners| { MatchingMore(lanes, i, KeyOf(SinkOf(listeners[m]))); }
      if lanes[i].1 != [] {
        sent := DeliverOne(lanes[i].0, lanes[i].1, listeners, sent);
      }
    }
    assert lanes[..|lanes|] == lanes;
  }

  lemma NothingYet(listeners: seq<Listener>)
    ensures Delivered([], [], listeners)
  {
  }
}
