/** One talker's chain as an object: `push_wide`, and the push-and-deliver of a console frame. */
module TalkerObject {
  import opened Types
  import opened Lanes
  import opened Audience
  import opened AmMixing
  import opened Decimation
  import opened Rendering
  import opened Hops

  /** Renderings wanted: each key once, in the order listeners first ask for it. */
  ghost predicate Wanted(sinks: seq<Sink>, keys: seq<LegKey>) {
    && NoDuplicates(keys)
    && (forall k :: k in keys <==> exists s :: s in sinks && !NothingArrives(s) && KeyOf(s) == k)
  }

  /** These keys, each with the buffer its rendering makes of these frames. */
  ghost predicate Rendered(render: Render, legs: map<LegKey, Leg>, bridge: Leg, clean: seq<Frame>,
                           keys: seq<LegKey>, out: AmMixing.Lanes) {
    && |out| == |keys|
    && forall i :: 0 <= i < |keys| ==> out[i] == (keys[i], Buffer(render, legs, bridge, clean, keys[i]))
  }

  /** The hops that ran have carried their inputs; the others are as they were. */
  ghost predicate Carried(render: Render, legs: map<LegKey, Leg>, bridge: Leg, clean: seq<Frame>,
                          keys: seq<LegKey>, legs': map<LegKey, Leg>) {
    && (forall k :: k in legs' <==> k in legs || (k in keys && clean != []))
    && forall k :: k in legs' ==>
         legs'[k] == if k in keys then LegFor(legs, k).(carried := LegFor(legs, k).carried + Inputs(render, bridge, clean, k))
                     else legs[k]
  }

  lemma BufferMore(render: Render, legs: map<LegKey, Leg>, bridge: Leg, clean: seq<Frame>, f: Frame, key: LegKey)
    ensures var leg, inputs := LegFor(legs, key), Inputs(render, bridge, clean + [f], key);
            && Inputs(render, bridge, clean, key) == inputs[..|clean|] && |inputs| == |clean| + 1
            && inputs[|clean|] == (if key.bridged then render(bridge.sink, bridge.output, bridge.carried + (clean + [f])) else f)
            && Buffer(render, legs, bridge, clean + [f], key) ==
                 Buffer(render, legs, bridge, clean, key) + render(leg.sink, leg.output, leg.carried + inputs)
  {
    assert (clean + [f])[..|clean|] == clean;
    var leg, inputs := LegFor(legs, key), Inputs(render, bridge, clean + [f], key);
    assert inputs[..|inputs| - 1] == Inputs(render, bridge, clean, key);
    var hops := Hop(render, leg, inputs);
    assert hops[..|hops| - 1] == Hop(render, leg, inputs[..|inputs| - 1]);
  }

  /** After `raws` have gone through: what came out, what every hop has carried. */
  ghost predicate Through(render: Render, condition: Condition, front0: seq<Frame>, legs0: map<LegKey, Leg>, b: Leg,
                          keys: seq<LegKey>, raws: seq<Frame>, out: AmMixing.Lanes,
                          front: seq<Frame>, legs: map<LegKey, Leg>)
  {
    var clean := Conditioned(condition, front0, raws);
    && front == front0 + raws
    && Rendered(render, legs0, b, clean, keys, out)
    && Carried(render, legs0, b, clean, keys, legs)
  }

  lemma ThroughNone(render: Render, condition: Condition, front0: seq<Frame>, legs0: map<LegKey, Leg>, b: Leg,
                    keys: seq<LegKey>)
    ensures Through(render, condition, front0, legs0, b, keys, [], seq(|keys|, i requires 0 <= i < |keys| => (keys[i], [])),
                    front0, legs0)
  {
    assert front0 + [] == front0;
    forall k | k in legs0 && k in keys
      ensures legs0[k] == legs0[k].(carried := legs0[k].carried + [])
    {
      assert legs0[k].carried + [] == legs0[k].carried;
    }
  }

  /** The hops after one more frame, given each ran once on its own input. */
  lemma ThroughMore(render: Render, condition: Condition, front0: seq<Frame>, legs0: map<LegKey, Leg>, b: Leg,
                    keys: seq<LegKey>, raws: seq<Frame>, raw: Frame,
                    out: AmMixing.Lanes, legs: map<LegKey, Leg>,
                    out': AmMixing.Lanes, legs': map<LegKey, Leg>)
    requires Through(render, condition, front0, legs0, b, keys, raws, out, front0 + raws, legs)
    requires var clean := Conditioned(condition, front0, raws);
             var f := condition(front0 + raws + [raw]);
             && |out'| == |out|
             && (forall i :: 0 <= i < |keys| ==>
                   var leg := LegFor(legs, keys[i]);
                   var fed := leg.carried + [if keys[i].bridged then render(b.sink, b.output, b.carried + (clean + [f])) else f];
                   && out'[i] == (keys[i], out[i].1 + render(leg.sink, leg.output, fed))
                   && keys[i] in legs' && legs'[keys[i]] == leg.(carried := fed))
             && (forall k :: k !in keys ==> (k in legs' <==> k in legs) && (k in legs' ==> legs'[k] == legs[k]))
    ensures Through(render, condition, front0, legs0, b, keys, raws + [raw], out', front0 + (raws + [raw]), legs')
  {
    hide Buffer;
    hide Inputs;
    hide LegFor;
    var clean := Conditioned(condition, front0, raws);
    assert (raws + [raw])[..|raws|] == raws && front0 + (raws + [raw]) == front0 + raws + [raw];
    var f := condition(front0 + raws + [raw]);
    assert Conditioned(condition, front0, raws + [raw]) == clean + [f];
    forall i | 0 <= i < |keys|
      ensures out'[i] == (keys[i], Buffer(render, legs0, b, clean + [f], keys[i]))
      ensures keys[i] in legs'
      ensures legs'[keys[i]] ==
              LegFor(legs0, keys[i]).(carried := LegFor(legs0, keys[i]).carried + Inputs(render, b, clean + [f], keys[i]))
    {
      HopMore(render, legs0, b, clean, f, keys[i], legs);
    }
    forall k | k in keys ensures exists i :: 0 <= i < |keys| && keys[i] == k {
    }
  }

  lemma ConditionedNone(condition: Condition, front: seq<Frame>)
    ensures Conditioned(condition, front, []) == []
  {
  }

  lemma ConditionedMore(condition: Condition, front: seq<Frame>, raws: seq<Frame>, raw: Frame)
    ensures Conditioned(condition, front, raws + [raw]) ==
            Conditioned(condition, front, raws) + [condition(front + (raws + [raw]))]
  {
    assert (raws + [raw])[..|raws|] == raws;
  }

  lemma HopMore(render: Render, legs0: map<LegKey, Leg>, b: Leg, clean: seq<Frame>, f: Frame, key: LegKey,
                legs: map<LegKey, Leg>)
    requires if key in legs then
               legs[key] == LegFor(legs0, key).(carried := LegFor(legs0, key).carried + Inputs(render, b, clean, key))
             else clean == [] && key !in legs0
    ensures var leg := LegFor(legs, key);
            var fed := leg.carried + [if key.bridged then render(b.sink, b.output, b.carried + (clean + [f])) else f];
            && fed == LegFor(legs0, key).carried + Inputs(render, b, clean + [f], key)
            && leg.sink == LegFor(legs0, key).sink && leg.output == LegFor(legs0, key).output
            && Buffer(render, legs0, b, clean + [f], key) ==
                 Buffer(render, legs0, b, clean, key) + render(leg.sink, leg.output, fed)
  {
    hide Buffer;
    BufferMore(render, legs0, b, clean, f, key);
    var inputs := Inputs(render, b, clean + [f], key);
    assert inputs == inputs[..|clean|] + [inputs[|clean|]];
    if key !in legs {
      assert Inputs(render, b, clean, key) == [];
    }
  }

  /** Each destination hop is for the link its rendering names, and ends in a loudspeaker. */
  ghost predicate LegsFit(legs: map<LegKey, Leg>) {
    forall k :: k in legs ==> legs[k] == Leg(Sink(k.mode, k.lane, k.bridged), true, legs[k].carried)
  }

  /** The hop to one kind of link, as it stands. */
  ghost function HopTo(legs: map<LegKey, Leg>, mode: Mode, lane: Quality, bridged: bool): Leg {
    var key := LegKey(mode, lane, bridged);
    Leg(Sink(mode, lane, bridged), true, if key in legs then legs[key].carried else [])
  }

  lemma CarriedFits(render: Render, legs: map<LegKey, Leg>, b: Leg, clean: seq<Frame>, keys: seq<LegKey>,
                    legs': map<LegKey, Leg>)
    requires LegsFit(legs) && Carried(render, legs, b, clean, keys, legs')
    ensures LegsFit(legs')
  {
    hide Inputs;
  }

  /** The chain to one kind of link, after what its rendering carried. */
  lemma ChainMovesOn(render: Render, condition: Condition, c: Chain, legs: map<LegKey, Leg>, b: Leg,
                     keys: seq<LegKey>, raws: seq<Frame>, left: seq<Sample>, key: LegKey, legs': map<LegKey, Leg>)
    requires LegsFit(legs) && key in keys
    requires c.leg == HopTo(legs, key.mode, key.lane, key.bridged) && (key.bridged ==> c.bridge == b)
    requires Carried(render, legs, b, Conditioned(condition, c.front, raws), keys, legs')
    ensures var clean := Conditioned(condition, c.front, raws);
            var fed := FeedFrames(render, condition, key.bridged, c, raws, left);
            && Buffer(render, legs, b, clean, key) == Flatten(fed.0)
            && |fed.0| == |clean|
            && fed.1 == Chain(left, c.front + raws,
                              if key.bridged then b.(carried := b.carried + clean) else c.bridge,
                              HopTo(legs', key.mode, key.lane, key.bridged))
  {
    hide Conditioned;
    hide Hop;
    hide Flatten;
    hide Carried;
    hide HopTo;
    hide LegsFit;
    HopMovesOn(render, legs, b, Conditioned(condition, c.front, raws), keys, key, legs');
  }

  lemma HopMovesOn(render: Render, legs: map<LegKey, Leg>, b: Leg, clean: seq<Frame>, keys: seq<LegKey>, key: LegKey,
                   legs': map<LegKey, Leg>)
    requires LegsFit(legs) && key in keys && Carried(render, legs, b, clean, keys, legs')
    ensures var hop := HopTo(legs, key.mode, key.lane, key.bridged);
            && LegFor(legs, key) == hop
            && HopTo(legs', key.mode, key.lane, key.bridged) ==
                 hop.(carried := hop.carried + Inputs(render, b, clean, key))
  {
    hide Hop;
    assert LegKey(key.mode, key.lane, key.bridged) == key;
    var hop := HopTo(legs, key.mode, key.lane, key.bridged);
    assert LegFor(legs, key) == hop;
    if key !in legs' {
      NoInputs(render, b, key);
      assert hop.carried + [] == [];
    }
  }

  lemma NoInputs(render: Render, b: Leg, key: LegKey)
    ensures Inputs(render, b, [], key) == []
  {
  }

  lemma AudibleIsWanted(listeners: seq<Listener>, l: Listener, keys: seq<LegKey>)
    requires l in listeners && Wanted(SinksOf(listeners), keys) && !NothingArrives(SinkOf(l))
    ensures KeyOf(SinkOf(l)) in keys
  {
    var m :| 0 <= m < |listeners| && listeners[m] == l;
    assert SinksOf(listeners)[m] in SinksOf(listeners);
  }

  lemma NothingRendered(render: Render, legs: map<LegKey, Leg>, b: Leg, clean: seq<Frame>)
    ensures Rendered(render, legs, b, clean, [], [])
  {
  }

  lemma BridgeKept(bridge: Option<Leg>, src: Sink, more: seq<Frame>)
    ensures var b := BridgeFor(bridge, src); BridgeFor(Some(b.(carried := b.carried + more)), src) == b.(carried := b.carried + more)
    ensures bridge.Some? && !bridge.value.output ==> !BridgeFor(bridge, src).output
    ensures bridge.None? ==> !BridgeFor(bridge, src).output
  {
  }

  class Talker {
    const decimator: Decimator
    /** Decimated samples waiting until there are enough of them for a frame. */
    var pending: seq<Sample>
    /** Every frame the front end has conditioned. */
    var front: seq<Frame>
    var bridge: Option<Leg>
    var legs: map<LegKey, Leg>
    const spf: nat
    const render: Render
    const condition: Condition

    ghost predicate Valid()
      reads this, decimator, decimator.history
    {
      && decimator.Valid() && spf > 0 && |pending| < spf && KeepsLength(render, condition)
      && LegsFit(legs) && (bridge.Some? ==> !bridge.value.output)
    }

    /** The chain from this talker to one kind of link. */
    ghost function ChainTo(src: Sink, mode: Mode, lane: Quality, bridged: bool): Chain
      reads this
    {
      Chain(pending, front, if bridged then BridgeFor(bridge, src) else Leg(src, false, []),
            HopTo(legs, mode, lane, bridged))
    }

    constructor (taps: seq<real>, spf: nat, render: Render, condition: Condition)
      requires |taps| == TAPS && spf > 0 && KeepsLength(render, condition)
      ensures Valid() && fresh(decimator) && fresh(decimator.history)
      ensures pending == [] && legs == map[] && bridge.None?
    {
      decimator := new Decimator(taps);
      pending, front, bridge, legs := [], [], None, map[];
      this.spf, this.render, this.condition := spf, render, condition;
    }

    static method KeysFor(sinks: seq<Sink>) returns (keys: seq<LegKey>)
      ensures Wanted(sinks, keys) && NoDuplicates(keys)
    {
      hide KeyOf;
      hide NothingArrives;
      keys := [];
      for i := 0 to |sinks|
        invariant forall j, k :: 0 <= j < k < |keys| ==> keys[j] != keys[k]
        invariant forall k :: k in keys <==> exists j :: 0 <= j < i && !NothingArrives(sinks[j]) && KeyOf(sinks[j]) == k
      {
        if !NothingArrives(sinks[i]) {
          var key := KeyOf(sinks[i]);
          if key !in keys {
            keys := keys + [key];
          }
        }
      }
    }

    /** Nobody to serve: whole frames are dropped so the backlog does not grow. */
    method DropFrames()
      requires spf > 0
      modifies this`pending
      ensures pending == old(pending)[spf * WholeCount(|old(pending)|, spf)..] && |pending| < spf
    {
      ghost var n: nat := 0;
      while |pending| >= spf
        invariant spf * n <= |old(pending)| && pending == old(pending)[spf * n..]
      {
        Below(spf, n + 1);
        pending := pending[spf..];
        n := n + 1;
      }
      WholeFrames(|old(pending)|, spf, n);
    }

    /** One conditioned frame over every hop in use. */
    method RunLegs(input: Frame, bridged: Frame, before: AmMixing.Lanes) returns (out: AmMixing.Lanes)
      requires forall i, j :: 0 <= i < j < |before| ==> before[i].0 != before[j].0
      modifies this`legs
      ensures |out| == |before|
      ensures forall i :: 0 <= i < |before| ==>
        var key := before[i].0;
        var leg := LegFor(old(legs), key);
        var fed := leg.carried + [if key.bridged then bridged else input];
        && out[i] == (key, before[i].1 + render(leg.sink, leg.output, fed))
        && key in legs && legs[key] == leg.(carried := fed)
      ensures forall k :: (forall i :: 0 <= i < |before| ==> before[i].0 != k) ==>
        (k in legs <==> k in old(legs)) && (k in legs ==> legs[k] == old(legs)[k])
    {
      out := before;
      for i := 0 to |before|
        invariant |out| == |before|
        invariant forall j :: i <= j < |before| ==> out[j] == before[j]
        invariant forall k :: (forall j :: 0 <= j < i ==> before[j].0 != k) ==>
          (k in legs <==> k in old(legs)) && (k in legs ==> legs[k] == old(legs)[k])
        invariant forall j :: 0 <= j < i ==>
          var key := before[j].0;
          var leg := LegFor(old(legs), key);
          var fed := leg.carried + [if key.bridged then bridged else input];
          && out[j] == (key, before[j].1 + render(leg.sink, leg.output, fed))
          && key in legs && legs[key] == leg.(carried := fed)
      {
        var (key, pcm) := out[i];
        var leg := LegFor(legs, key);
        var fed := leg.carried + [if key.bridged then bridged else input];
        legs := legs[key := leg.(carried := fed)];
        out := out[i := (key, pcm + render(leg.sink, leg.output, fed))];
      }
    }

    method OpenBridge(src: Sink)
      modifies this`bridge
      ensures bridge == Some(BridgeFor(old(bridge), src))
    {
      if bridge.None? || KeyOf(bridge.value.sink) != KeyOf(src) {
        bridge := Some(Leg(src, false, []));
      }
    }

    /** Every whole frame pending, over the bridge if anybody is across it, then over each hop. */
    method RenderFrames(src: Sink, keys: seq<LegKey>) returns (out: AmMixing.Lanes)
      requires spf > 0
      requires NoDuplicates(keys)
      modifies this`pending, this`front, this`bridge, this`legs
      ensures var n := WholeCount(|old(pending)|, spf);
              && pending == old(pending)[spf * n..] && |pending| < spf
              && RenderedFrames(FramesOf(old(pending), spf, n), old(front), old(bridge), old(legs), src, keys, out)
    {
      hide Conditioned;
      hide Through;
      hide FramesOf;
      hide BridgeFor;
      ghost var samples := pending;
      var needBridge := exists k :: k in keys && k.bridged;
      ghost var b := BridgeFor(bridge, src);
      if needBridge {
        OpenBridge(src);
      }
      out := seq(|keys|, i requires 0 <= i < |keys| => (keys[i], []));
      ThroughNone(render, condition, front, legs, b, keys);
      ghost var n: nat := 0;
      ghost var raws: seq<Frame> := [];
      NoFrames(samples, spf);
      ConditionedNone(condition, front);
      assert b.carried + [] == b.carried;
      while |pending| >= spf
        invariant spf * n <= |samples| && pending == samples[spf * n..]
        invariant raws == FramesOf(samples, spf, n)
        invariant Through(render, condition, old(front), old(legs), b, keys, raws, out, front, legs)
        invariant bridge == if needBridge then Some(b.(carried := b.carried + Conditioned(condition, old(front), raws)))
                            else old(bridge)
      {
        OneMoreFrame(samples, spf, n);
        var raw := pending[..spf];
        pending := pending[spf..];
        out := RenderFrame(b, needBridge, keys, old(front), old(legs), raws, raw, out);
        raws := raws + [raw];
        n := n + 1;
      }
      WholeFrames(|samples|, spf, n);
    }

    method RenderFrame(ghost b: Leg, needBridge: bool, keys: seq<LegKey>, ghost front0: seq<Frame>,
                       ghost legs0: map<LegKey, Leg>, ghost raws: seq<Frame>, raw: Frame, before: AmMixing.Lanes)
      returns (out: AmMixing.Lanes)
      requires NoDuplicates(keys)
      requires needBridge <==> exists k :: k in keys && k.bridged
      requires Through(render, condition, front0, legs0, b, keys, raws, before, front, legs)
      requires needBridge ==> bridge == Some(b.(carried := b.carried + Conditioned(condition, front0, raws)))
      modifies this`front, this`bridge, this`legs
      ensures Through(render, condition, front0, legs0, b, keys, raws + [raw], out, front, legs)
      ensures bridge == if needBridge then Some(b.(carried := b.carried + Conditioned(condition, front0, raws + [raw])))
                        else old(bridge)
    {
      hide Buffer;
      hide Carried;
      hide Conditioned;
      ghost var clean := Conditioned(condition, front0, raws);
      front := front + [raw];
      var f := condition(front);
      ConditionedMore(condition, front0, raws, raw);
      assert front == front0 + raws + [raw] == front0 + (raws + [raw]);
      var bridged: Frame := [];
      if needBridge {
        var leg := bridge.value;
        var fed := leg.carried + [f];
        assert fed == b.carried + (clean + [f]);
        bridge := Some(leg.(carried := fed));
        bridged := render(leg.sink, leg.output, fed);
      }
      ghost var was := legs;
      out := RunLegs(f, bridged, before);
      forall k | k !in keys ensures forall i :: 0 <= i < |before| ==> before[i].0 != k {
      }
      ThroughMore(render, condition, front0, legs0, b, keys, raws, raw, before, was, out, legs);
    }

    /** Everything in hand, rendered for whoever can hear any of it. */
    method RenderPending(src: Sink, sinks: seq<Sink>) returns (out: AmMixing.Lanes)
      requires spf > 0
      modifies this`pending, this`front, this`bridge, this`legs
      ensures |pending| < spf && Pushed(old(pending), old(front), old(bridge), old(legs), src, sinks, out)
    {
      hide Wanted;
      hide RenderedFrames;
      hide FramesOf;
      var keys := KeysFor(sinks);
      if keys == [] {
        DropFrames();
        return [];
      }
      out := RenderFrames(src, keys);
      assert Wanted(sinks, keys);
    }

    /** Feeds 48 kHz samples and returns the audio of every rendering in use. */
    method PushWide(wide: seq<Sample>, src: Sink, sinks: seq<Sink>) returns (out: AmMixing.Lanes)
      requires Valid()
      modifies this, decimator, decimator.history
      ensures Valid() && decimator.fed == old(decimator.fed) + wide
      ensures Pushed(old(pending) + Emitted(decimator.taps, old(decimator.fed), wide),
                     old(front), old(bridge), old(legs), src, sinks, out)
    {
      hide Pushed;
      hide KeepsLength;
      hide Emitted;
      var narrow := decimator.Push(wide);
      pending := pending + narrow;
      out := RenderPending(src, sinks);
      StillFits(old(pending) + narrow, old(front), old(bridge), old(legs), src, sinks, out);
    }

    /** What one listener gets of one packet: what comes out of its own chain, whole and
        once; nothing on a digital link under eight. The chain is left ready for the next. */
    ghost predicate HeardOnce(l: Listener, was: Chain, samples: seq<Sample>, src: Sink, sent: seq<Packet>)
      requires spf > 0
      reads this
    {
      if l.mode == P25 && l.quality < 8 then Received(sent, l.client) == []
      else
        var fed := Feed(render, condition, spf, l.bridged, was, samples);
        && Received(sent, l.client) == (if fed.0 == [] then [] else [Flatten(fed.0)])
        && ChainTo(src, l.mode, LaneOf(l.quality), l.bridged) == fed.1
    }

    /** Renders what one packet completes and sends it: each listener its own rendering
        once, however the listeners share renderings. */
    method PushAndDeliver(wide: seq<Sample>, src: Sink, listeners: seq<Listener>) returns (sent: seq<Packet>)
      requires Valid() && DistinctClients(listeners)
      modifies this, decimator, decimator.history
      ensures Valid()
      ensures listeners == [] ==> sent == [] && decimator.fed == old(decimator.fed) && pending == old(pending)
      ensures listeners != [] ==>
        var all := old(pending) + Emitted(decimator.taps, old(decimator.fed), wide);
        && decimator.fed == old(decimator.fed) + wide
        && pending == all[spf * WholeCount(|all|, spf)..]
      ensures forall l :: l in listeners ==>
        HeardOnce(l, old(ChainTo(src, l.mode, LaneOf(l.quality), l.bridged)),
                  Emitted(decimator.taps, old(decimator.fed), wide), src, sent)
      ensures forall c :: (forall l :: l in listeners ==> l.client != c) ==> Received(sent, c) == []
    {
      hide Buffer;
      hide FramesOf;
      hide Conditioned;
      hide Received;
      hide Matching;
      hide KeyOf;
      hide NothingArrives;
      hide Wanted;
      hide Carried;
      hide Emitted;
      hide BridgeFor;
      hide Feed;
      if listeners == [] {
        NothingYet([]);
        return [];
      }
      var out := PushWide(wide, src, SinksOf(listeners));
      sent := Deliver(out, listeners);
      ghost var narrow := Emitted(decimator.taps, old(decimator.fed), wide);
      forall l | l in listeners
        ensures HeardOnce(l, old(ChainTo(src, l.mode, LaneOf(l.quality), l.bridged)), narrow, src, sent)
      {
        HeardByOne(old(pending), old(front), old(bridge), old(legs), narrow, src, listeners, l, out, sent);
      }
    }

    lemma HeardByOne(pending0: seq<Sample>, front0: seq<Frame>, bridge0: Option<Leg>, legs0: map<LegKey, Leg>,
                     narrow: seq<Sample>, src: Sink, listeners: seq<Listener>, l: Listener,
                     out: AmMixing.Lanes, sent: seq<Packet>)
      requires spf > 0 && KeepsLength(render, condition) && LegsFit(legs0) && l in listeners
      requires Pushed(pending0 + narrow, front0, bridge0, legs0, src, SinksOf(listeners), out)
      requires Delivered(sent, out, listeners)
      ensures HeardOnce(l, Chain(pending0, front0, if l.bridged then BridgeFor(bridge0, src) else Leg(src, false, []),
                                 HopTo(legs0, l.mode, LaneOf(l.quality), l.bridged)), narrow, src, sent)
    {
      hide Buffer;
      hide FramesOf;
      hide Conditioned;
      hide Received;
      hide Matching;
      hide NothingArrives;
      hide Carried;
      hide BridgeFor;
      hide Feed;
      hide KeepsLength;
      hide HopTo;
      hide LegsFit;
      hide WholeCount;
      hide Wanted;
      hide Rendered;
      hide FeedFrames;
      var samples := pending0 + narrow;
      var n := WholeCount(|samples|, spf);
      var raws := FramesOf(samples, spf, n);
      var clean := Conditioned(condition, front0, raws);
      var b := BridgeFor(bridge0, src);
      var keys :| Wanted(SinksOf(listeners), keys)
        && if keys == [] then out == [] && legs == legs0 && bridge == bridge0 && front == front0
           else RenderedFrames(raws, front0, bridge0, legs0, src, keys, out);
      ConditionedLong(render, condition, front0, raws, spf);
      var key := KeyOf(SinkOf(l));
      assert key == LegKey(l.mode, LaneOf(l.quality), l.bridged);
      NothingRendered(render, legs0, b, clean);
      OneBufferEach(render, condition, legs0, b, clean, spf, keys, out, listeners, l);
      NothingArrivesIff(SinkOf(l));
      var m :| 0 <= m < |listeners| && listeners[m] == l;
      if !(l.mode == P25 && l.quality < 8) {
        AudibleIsWanted(listeners, l, keys);
        var was := Chain(pending0, front0, if l.bridged then b else Leg(src, false, []),
                         HopTo(legs0, l.mode, LaneOf(l.quality), l.bridged));
        ChainMovesOn(render, condition, was, legs0, b, keys, raws, samples[spf * n..], key, legs);
        FeedIs(render, condition, spf, l.bridged, was, narrow);
        BridgeKept(bridge0, src, clean);
      }
    }

    lemma StillFits(samples: seq<Sample>, front0: seq<Frame>, bridge0: Option<Leg>, legs0: map<LegKey, Leg>,
                    src: Sink, sinks: seq<Sink>, out: AmMixing.Lanes)
      requires spf > 0 && LegsFit(legs0) && (bridge0.Some? ==> !bridge0.value.output)
      requires Pushed(samples, front0, bridge0, legs0, src, sinks, out)
      ensures LegsFit(legs) && (bridge.Some? ==> !bridge.value.output)
    {
      hide Wanted;
      hide Carried;
      hide LegsFit;
      hide FramesOf;
      hide Conditioned;
      hide BridgeFor;
      var raws := FramesOf(samples, spf, WholeCount(|samples|, spf));
      var clean := Conditioned(condition, front0, raws);
      var keys :| Wanted(sinks, keys)
        && if keys == [] then out == [] && legs == legs0 && bridge == bridge0 && front == front0
           else RenderedFrames(raws, front0, bridge0, legs0, src, keys, out);
      if keys != [] {
        CarriedFits(render, legs0, BridgeFor(bridge0, src), clean, keys, legs);
        BridgeKept(bridge0, src, clean);
      }
    }

    /** What a push leaves behind, given the 8 kHz samples in hand when it starts. */
    ghost predicate Pushed(samples: seq<Sample>, front0: seq<Frame>, bridge0: Option<Leg>, legs0: map<LegKey, Leg>,
                           src: Sink, sinks: seq<Sink>, out: AmMixing.Lanes)
      requires spf > 0
      reads this
    {
      var n := WholeCount(|samples|, spf);
      && pending == samples[spf * n..]
      && exists keys :: Wanted(sinks, keys)
           && if keys == [] then out == [] && legs == legs0 && bridge == bridge0 && front == front0
              else RenderedFrames(FramesOf(samples, spf, n), front0, bridge0, legs0, src, keys, out)
    }

    ghost predicate RenderedFrames(raws: seq<Frame>, front0: seq<Frame>, bridge0: Option<Leg>, legs0: map<LegKey, Leg>,
                                   src: Sink, keys: seq<LegKey>, out: AmMixing.Lanes)
      reads this
    {
      var b := BridgeFor(bridge0, src);
      var clean := Conditioned(condition, front0, raws);
      && Through(render, condition, front0, legs0, b, keys, raws, out, front, legs)
      && bridge == if exists k :: k in keys && k.bridged then Some(b.(carried := b.carried + clean)) else bridge0
    }
  }

  function SinksOf(listeners: seq<Listener>): (sinks: seq<Sink>)
    ensures |sinks| == |listeners| && forall i :: 0 <= i < |sinks| ==> sinks[i] == SinkOf(listeners[i])
  {
    seq(|listeners|, i requires 0 <= i < |listeners| => SinkOf(listeners[i]))
  }

  /** A listener on a rendering with audio gets that buffer, whole and once; one whose
      receiver is below threshold gets nothing. */
  lemma OneBufferEach(render: Render, condition: Condition, legs: map<LegKey, Leg>, b: Leg, clean: seq<Frame>, spf: nat,
                      keys: seq<LegKey>, out: AmMixing.Lanes, listeners: seq<Listener>, l: Listener)
    requires KeepsLength(render, condition) && AllLong(clean, spf) && spf > 0
    requires Wanted(SinksOf(listeners), keys) && Rendered(render, legs, b, clean, keys, out) && l in listeners
    ensures var key := KeyOf(SinkOf(l));
            Matching(out, key) ==
              if NothingArrives(SinkOf(l)) || clean == [] then [] else [Buffer(render, legs, b, clean, key)]
  {
    hide Buffer;
    hide NothingArrives;
    hide KeyOf;
    var key := KeyOf(SinkOf(l));
    var sinks := SinksOf(listeners);
    forall k ensures |Buffer(render, legs, b, clean, k)| == spf * |clean| {
      BufferLong(render, condition, legs, b, clean, k, spf);
    }
    if clean == [] {
      NothingMatches(out, key);
    } else if NothingArrives(SinkOf(l)) {
      if key in keys {
        var s :| s in sinks && !NothingArrives(s) && KeyOf(s) == key;
        MutedByKey(s, SinkOf(l));
      }
      NothingMatches(out, key);
    } else {
      var i :| 0 <= i < |listeners| && listeners[i] == l;
      assert sinks[i] in sinks && key in keys;
      var at :| 0 <= at < |keys| && keys[at] == key;
      Positive(spf, |clean|);
      OneMatches(out, key, at);
    }
  }

  lemma {:induction false} Positive(spf: nat, n: nat)
    requires spf > 0 && n > 0
    ensures spf * n > 0
  {
    Below(spf, n);
  }
}
