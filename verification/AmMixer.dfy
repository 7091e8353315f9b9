/** The mixer object: queues popped sample by sample, proved to be AmMixing's steps. */
module AmMixer {
  import opened Types
  import opened AmMixing
  import M = AmMixing

  class AmMix {
    var queues: Queues
    var seen: map<U32, Instant>
    /** Where in its turn the beat note is. */
    var phase: real
    /** What the beat note adds to a sample at this phase. */
    const beat: real -> int

    ghost predicate Valid() {
      forall k :: -BEAT_PEAK <= beat(k) <= BEAT_PEAK
    }

    ghost function Abs(): Mix
      reads this
    {
      Mix(queues, seen, phase)
    }

    constructor (beat: real -> int)
      requires forall k :: -BEAT_PEAK <= beat(k) <= BEAT_PEAK
      ensures Valid() && Abs() == Mix(map[], map[], 0.0) && this.beat == beat
    {
      queues, seen, phase := map[], map[], 0.0;
      this.beat := beat;
    }

    method Add(lane: LegKey, talker: U32, pcm: seq<Sample>, now: Instant)
      modifies this
      ensures Abs() == M.Add(old(Abs()), lane, talker, pcm, now)
    {
      seen := seen[talker := now];
      var queue := if (lane, talker) in queues then queues[(lane, talker)] else [];
      queues := queues[(lane, talker) := queue + pcm];
    }

    /** Takes one sample from every talker of a rendering, silence from whoever is dry. */
    method PopAndSum(lane: LegKey, talkers: set<U32>) returns (sum: int)
      requires talkers == TalkersIn(queues, lane)
      modifies this`queues
      ensures sum == SumAt(old(queues), lane, talkers, 0)
      ensures queues == Advance(old(queues), lane, 1)
    {
      hide SumAt;
      hide PoppedSome;
      hide Advance;
      ghost var q := queues;
      TalkersAre(q, lane);
      PoppedAll(q, lane);
      SumNone(q, lane, 0);
      sum := 0;
      var todo := talkers;
      while todo != {}
        invariant todo <= talkers
        invariant sum + SumAt(q, lane, todo, 0) == SumAt(q, lane, talkers, 0)
        invariant queues == PoppedSome(q, lane, todo)
        decreases todo
      {
        var t :| t in todo;
        SumAnyOrder(q, lane, todo, 0, t);
        PopOne(q, lane, todo, t);
        var queue := queues[(lane, t)];
        if queue != [] {
          sum := sum + queue[0];
          queues := queues[(lane, t) := queue[1..]];
        }
        todo := todo - {t};
      }
    }

    /** The state after `pcm` has come out of one rendering. */
    ghost predicate Drained(q: Queues, lane: LegKey, start: real, pcm: seq<Sample>)
      reads this
    {
      && queues == Advance(q, lane, |pcm|)
      && pcm == LanePcm(q, lane, beat, start, |pcm|)
      && phase == PhaseAfter(q, lane, start, |pcm|)
    }

    method DrainSample(ghost q: Queues, lane: LegKey, talkers: set<U32>, ghost start: real, pcm: seq<Sample>)
      returns (pcm': seq<Sample>)
      requires talkers == TalkersIn(q, lane) && Drained(q, lane, start, pcm)
      modifies this`queues, this`phase
      ensures |pcm'| == |pcm| + 1 && Drained(q, lane, start, pcm')
    {
      hide SumAt;
      hide Advance;
      hide LanePcm;
      hide TalkersIn;
      AdvanceShape(q, lane, |pcm|);
      AdvanceTwice(q, lane, |pcm|, 1);
      AdvancedSum(q, lane, talkers, |pcm|, 0);
      PcmMore(q, lane, beat, start, |pcm|);
      var sum := PopAndSum(lane, talkers);
      if |talkers| > 1 {
        phase := phase + BEAT_STEP;
        if phase > TAU {
          phase := phase - TAU;
        }
        sum := sum + beat(phase);
      }
      pcm' := pcm + [Clamp(sum)];
    }

    /** Whole frames of one rendering, for as long as everybody on it has one. */
    method DrainLane(lane: LegKey) returns (pcm: seq<Sample>)
      requires lane in LanesOf(queues)
      modifies this`queues, this`phase
      ensures var n := AM_FRAME * FrameCount(old(queues), lane);
              && queues == Advance(old(queues), lane, n)
              && pcm == LanePcm(old(queues), lane, beat, old(phase), n)
              && phase == PhaseAfter(old(queues), lane, old(phase), n)
    {
      hide FrameCount;
      hide MixedAt;
      hide Advance;
      hide LanePcm;
      hide TalkersIn;
      ghost var q := queues;
      TalkersAre(q, lane);
      var talkers := TalkersIn(queues, lane);
      ghost var someone :| someone in talkers;
      pcm := [];
      AdvanceShape(q, lane, 0);
      PcmMore(q, lane, beat, phase, 0);
      ghost var n: nat := 0;
      while forall t :: t in talkers ==> (lane, t) in queues && |queues[(lane, t)]| >= AM_FRAME
        invariant |pcm| == AM_FRAME * n && HasFrames(q, lane, n)
        invariant Drained(q, lane, old(phase), pcm)
        decreases |q[(lane, someone)]| - |pcm|
      {
        ReadyMeansOneMore(q, lane, n);
        assert AllReady(queues, lane, talkers);
        pcm := DrainFrame(q, lane, talkers, old(phase), pcm);
        n := n + 1;
      }
      ReadyMeansOneMore(q, lane, n);
      OneFrameCount(q, lane, n, FrameCount(q, lane));
    }

    method DrainFrame(ghost q: Queues, lane: LegKey, talkers: set<U32>, ghost start: real, pcm: seq<Sample>)
      returns (pcm': seq<Sample>)
      requires talkers == TalkersIn(q, lane) && Drained(q, lane, start, pcm)
      modifies this`queues, this`phase
      ensures |pcm'| == |pcm| + AM_FRAME && Drained(q, lane, start, pcm')
    {
      hide Advance;
      hide LanePcm;
      hide TalkersIn;
      pcm' := pcm;
      for i := 0 to AM_FRAME
        invariant |pcm'| == |pcm| + i && Drained(q, lane, start, pcm')
      {
        pcm' := DrainSample(q, lane, talkers, start, pcm');
      }
    }

    /** Forgets the talkers not heard from lately, queues and all. */
    method Expire(now: Instant)
      modifies this`seen, this`queues
      ensures seen == StillSeen(old(seen), now)
      ensures queues == StillQueued(old(queues), StillSeen(old(seen), now))
    {
      seen := map t | t in seen && Recent(now, seen[t]) :: seen[t];
      queues := map k | k in queues && k.1 in seen :: queues[k];
    }

    method DrainLanes() returns (out: Lanes)
      modifies this`queues, this`phase
      ensures queues == Consumed(old(queues))
      ensures (out, phase) == DrainFrom(old(queues), beat, LanesOf(old(queues)), old(phase))
    {
      hide DrainFrom;
      hide FrameCount;
      hide LanePcm;
      hide Advance;
      hide Rank;
      hide Consumed;
      ghost var q := queues;
      ghost var start := phase;
      var todo := LanesOf(queues);
      out := [];
      UnderwayStart(q);
      EmitStart(q, beat, start);
      while todo != {}
        invariant todo <= LanesOf(q)
        invariant Underway(queues, q, todo)
        invariant Emitting(q, beat, start, todo, out, phase)
        decreases todo
      {
        ghost var lowest := LowestExists(todo);
        var lane :| lane in todo && forall o :: o in todo ==> Rank(lane) <= Rank(o);
        LowestIs(todo, lane);
        ghost var was, n := phase, AM_FRAME * FrameCount(q, lane);
        ghost var before := queues;
        UnderwayLane(queues, q, todo, lane);
        LaneIsLocal(q, queues, lane, beat, was, n);
        var pcm := DrainLane(lane);
        OneLaneDone(before, queues, q, todo, lane);
        EmitOne(q, beat, start, todo, lane, out, was);
        if pcm != [] {
          out := out + [(lane, pcm)];
        }
        todo := todo - {lane};
      }
      AllLanesDone(queues, q);
      EmitDone(q, beat, start, out, phase);
    }

    /** Expires, then mixes as many frames as the slowest talker left has queued. */
    method Drain(now: Instant) returns (out: Lanes)
      modifies this
      ensures (out, Abs()) == M.Drain(old(Abs()), beat, now)
    {
      hide DrainFrom;
      hide Consumed;
      Expire(now);
      out := DrainLanes();
    }

    // -- The end of a collision ---------------------------------------------

    /** Everything one rendering still holds, padded with silence to the longest queue. */
    method FlushLane(lane: LegKey) returns (pcm: seq<Sample>)
      requires lane in LanesOf(queues)
      modifies this`queues
      ensures IsLongest(old(queues), lane, |pcm|) && pcm == PaddedPcm(old(queues), lane, |pcm|)
      ensures queues == Advance(old(queues), lane, |pcm|)
    {
      hide SumAt;
      hide Advance;
      hide TalkersIn;
      hide PaddedPcm;
      hide IsLongest;
      ghost var q := queues;
      TalkersAre(q, lane);
      PaddedMore(q, lane, 0);
      var talkers := TalkersIn(queues, lane);
      var longest := LongestQueue(lane, talkers);
      pcm := [];
      AdvanceShape(q, lane, 0);
      for i := 0 to longest
        invariant |pcm| == i && pcm == PaddedPcm(q, lane, i)
        invariant queues == Advance(q, lane, i)
      {
        pcm := FlushSample(q, lane, talkers, pcm);
      }
    }

    method FlushSample(ghost q: Queues, lane: LegKey, talkers: set<U32>, pcm: seq<Sample>)
      returns (pcm': seq<Sample>)
      requires talkers == TalkersIn(q, lane)
      requires queues == Advance(q, lane, |pcm|) && pcm == PaddedPcm(q, lane, |pcm|)
      modifies this`queues
      ensures |pcm'| == |pcm| + 1
      ensures queues == Advance(q, lane, |pcm'|) && pcm' == PaddedPcm(q, lane, |pcm'|)
    {
      hide SumAt;
      hide Advance;
      hide TalkersIn;
      hide PaddedPcm;
      AdvanceShape(q, lane, |pcm|);
      AdvanceTwice(q, lane, |pcm|, 1);
      AdvancedSum(q, lane, talkers, |pcm|, 0);
      PaddedMore(q, lane, |pcm|);
      var sum := PopAndSum(lane, talkers);
      pcm' := pcm + [Clamp(sum)];
    }

    method LongestQueue(lane: LegKey, talkers: set<U32>) returns (longest: nat)
      requires forall t :: t in talkers <==> (lane, t) in queues
      ensures IsLongest(queues, lane, longest)
    {
      longest := 0;
      var todo := talkers;
      while todo != {}
        invariant todo <= talkers
        invariant forall t :: t in talkers && t !in todo ==> |queues[(lane, t)]| <= longest
        invariant longest > 0 ==> exists t :: t in talkers && |queues[(lane, t)]| == longest
        decreases todo
      {
        var t :| t in todo;
        if |queues[(lane, t)]| > longest {
          longest := |queues[(lane, t)]|;
        }
        todo := todo - {t};
      }
    }

    method Flush() returns (out: Lanes)
      modifies this
      ensures (out, Abs()) == M.Flush(old(Abs()))
    {
      hide FlushFrom;
      hide PaddedPcm;
      hide Advance;
      hide Rank;
      ghost var q := queues;
      var todo := LanesOf(queues);
      out := [];
      while todo != {}
        invariant todo <= LanesOf(q)
        invariant forall lane :: lane in todo ==> SameLane(q, queues, lane)
        invariant FlushFrom(q, LanesOf(q)) == out + FlushFrom(q, todo)
        invariant phase == old(phase)
        decreases todo
      {
        ghost var lowest := LowestExists(todo);
        var lane :| lane in todo && forall o :: o in todo ==> Rank(lane) <= Rank(o);
        LowestIs(todo, lane);
        LaneIsLocal(q, queues, lane, beat, 0.0, 0);
        ghost var before := queues;
        var pcm := FlushLane(lane);
        OthersSame(q, before, queues, todo, lane, |pcm|);
        FlushedStep(q, before, todo, lane, out, pcm);
        if pcm != [] {
          out := out + [(lane, pcm)];
        }
        todo := todo - {lane};
      }
      NothingLeft(q);
      assert out + [] == out;
      queues, seen := map[], map[];
    }
  }
}
