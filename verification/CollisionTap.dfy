/**
 * What a tap does with one packet's renderings: summed with everybody else's while
 * an AM collision lasts, flushed when it ends, then delivered.
 */
module CollisionTap {
  import opened Types
  import opened Lanes
  import opened Routing
  import opened RouterObject
  import opened Audience
  import opened AmMixing
  import opened AmMixer
  import opened Rendering

  /** Each AM rendering's audio added to the mixer as this talker's. */
  function AddLanes(m: Mix, lanes: AmMixing.Lanes, talker: U32, now: Instant): Mix {
    if lanes == [] then m
    else
      var front := AddLanes(m, lanes[..|lanes| - 1], talker, now);
      var (key, pcm) := lanes[|lanes| - 1];
      if key.mode == Am then Add(front, key, talker, pcm, now) else front
  }

  /** The renderings no collision touches. */
  function Clean(lanes: AmMixing.Lanes): AmMixing.Lanes {
    if lanes == [] then []
    else
      var front, last := Clean(lanes[..|lanes| - 1]), lanes[|lanes| - 1];
      if last.0.mode == Am then front else front + [last]
  }

  /** Every AM rendering's samples join that talker's own queue for it, once, and no other queue. */
  lemma {:induction false} EachJoinsItsQueue(m: Mix, lanes: AmMixing.Lanes, talker: U32, now: Instant, k: (LegKey, U32))
    ensures Queued(AddLanes(m, lanes, talker, now).queues, k) ==
            if k.0.mode == Am && k.1 == talker then Queued(m.queues, k) + PcmFor(lanes, k.0) else Queued(m.queues, k)
  {
    if lanes != [] {
      EachJoinsItsQueue(m, lanes[..|lanes| - 1], talker, now, k);
    }
  }

  /** A digital or FM listener hears exactly what was rendered, collision or not. */
  lemma {:induction false} CleanStaysClean(lanes: AmMixing.Lanes, key: LegKey)
    requires key.mode != Am
    ensures Matching(Clean(lanes), key) == Matching(lanes, key)
  {
    if lanes != [] {
      CleanStaysClean(lanes[..|lanes| - 1], key);
      var front, last := Clean(lanes[..|lanes| - 1]), lanes[|lanes| - 1];
      if last.0.mode != Am {
        assert (front + [last])[..|front|] == front;
      }
    }
  }

  lemma {:induction false} MatchingConcat(a: AmMixing.Lanes, b: AmMixing.Lanes, key: LegKey)
    ensures Matching(a + b, key) == Matching(a, key) + Matching(b, key)
  {
    if b == [] {
      assert a + b == a;
    } else {
      var front, last := b[..|b| - 1], b[|b| - 1];
      assert (a + b)[..|a + b| - 1] == a + front;
      MatchingConcat(a, front, key);
    }
  }

  /** What a listener on a rendering is sent, joined up, is that rendering's audio. */
  lemma {:induction false} SentIsPcm(lanes: AmMixing.Lanes, key: LegKey)
    ensures Flatten(Matching(lanes, key)) == PcmFor(lanes, key)
  {
    if lanes != [] {
      var front, last := Matching(lanes[..|lanes| - 1], key), lanes[|lanes| - 1];
      SentIsPcm(lanes[..|lanes| - 1], key);
      assert (front + [last.1])[..|front|] == front;
    }
  }

  lemma {:induction false} CleanHasNoAm(lanes: AmMixing.Lanes, key: LegKey)
    requires key.mode == Am
    ensures PcmFor(Clean(lanes), key) == []
  {
    if lanes != [] {
      CleanHasNoAm(lanes[..|lanes| - 1], key);
      var front, last := Clean(lanes[..|lanes| - 1]), lanes[|lanes| - 1];
      if last.0.mode != Am {
        assert (front + [last])[..|front|] == front;
      }
    }
  }

  // -- One frequency, packet by packet --------------------------------------

  const NO_MIX := Mix(map[], map[], 0.0)

  /** One packet's renderings, and the routing table it found. */
  datatype Arrival = Arrival(routing: State, talker: U32, lanes: AmMixing.Lanes, now: Instant)

  /** What goes out, and what the frequency's mixer is left with: nothing once nobody collides. */
  ghost function TapStep(beat: real -> int, m: Mix, tg: Id, a: Arrival): (AmMixing.Lanes, Mix) {
    if Collision(a.routing, tg) then
      var (mixed, m') := AmMixing.Drain(AddLanes(m, a.lanes, a.talker, a.now), beat, a.now);
      (mixed + Clean(a.lanes), m')
    else (Flush(m).0 + a.lanes, NO_MIX)
  }

  ghost function RunTap(beat: real -> int, tg: Id, arrivals: seq<Arrival>): Mix {
    if arrivals == [] then NO_MIX
    else TapStep(beat, RunTap(beat, tg, arrivals[..|arrivals| - 1]), tg, arrivals[|arrivals| - 1]).1
  }

  /** What this packet makes the mixer sum. */
  ghost function Mixed(m: Mix, tg: Id, a: Arrival): Queues {
    if Collision(a.routing, tg) then Shares(AddLanes(m, a.lanes, a.talker, a.now), DrainOp(a.now))
    else Shares(m, FlushOp)
  }

  /** What it sends past the mixer. */
  ghost function Straight(tg: Id, a: Arrival, lane: LegKey): seq<Sample> {
    if Collision(a.routing, tg) then [] else PcmFor(a.lanes, lane)
  }

  /** Where the beat stands for one rendering of this packet: nowhere once nobody collides. */
  ghost function BeatAt(beat: real -> int, m: Mix, tg: Id, a: Arrival, lane: LegKey): Option<real> {
    if Collision(a.routing, tg) then Some(BeatFrom(AddLanes(m, a.lanes, a.talker, a.now), beat, a.now, lane)) else None
  }

  /** What an AM listener is sent is the sum of what everybody's samples were mixed, then
      what went straight through: a share counted in `Mixed` is audibly out. */
  lemma HeardIsTheSum(beat: real -> int, m: Mix, tg: Id, a: Arrival, lane: LegKey)
    requires lane.mode == Am
    ensures exists pcm ::
      && Flatten(Matching(TapStep(beat, m, tg, a).0, lane)) == pcm + Straight(tg, a, lane)
      && IsMixOf(Mixed(m, tg, a), lane, pcm, beat, BeatAt(beat, m, tg, a, lane))
  {
    hide AmMixing.Drain;
    hide AmMixing.Flush;
    hide AddLanes;
    hide Shares;
    hide IsMixOf;
    hide Collision;
    hide Clean;
    hide Matching;
    hide PcmFor;
    hide Flatten;
    hide BeatFrom;
    SentIsPcm(TapStep(beat, m, tg, a).0, lane);
    if Collision(a.routing, tg) {
      var m1 := AddLanes(m, a.lanes, a.talker, a.now);
      DrainMixesItsShares(m1, beat, a.now, lane);
      var mixed := AmMixing.Drain(m1, beat, a.now).0;
      PcmForConcat(mixed, Clean(a.lanes), lane);
      CleanHasNoAm(a.lanes, lane);
      assert IsMixOf(Mixed(m, tg, a), lane, PcmFor(mixed, lane), beat, BeatAt(beat, m, tg, a, lane));
    } else {
      var held := AmMixing.Flush(m).0;
      FlushMixesItsShares(m, beat, lane);
      PcmForConcat(held, a.lanes, lane);
      assert BeatAt(beat, m, tg, a, lane) == None;
      assert IsMixOf(Mixed(m, tg, a), lane, PcmFor(held, lane), beat, BeatAt(beat, m, tg, a, lane));
    }
  }

  /** How many samples of beat have gone out since the collision began. */
  ghost function BeatSoFar(beat: real -> int, tg: Id, arrivals: seq<Arrival>): nat {
    if arrivals == [] then 0
    else
      var before, a := arrivals[..|arrivals| - 1], arrivals[|arrivals| - 1];
      if !Collision(a.routing, tg) then 0
      else
        var m := AddLanes(RunTap(beat, tg, before), a.lanes, a.talker, a.now);
        BeatSoFar(beat, tg, before) + BeatIn(Present(m, a.now), AmMixing.Drain(m, beat, a.now).0)
  }

  lemma {:induction false} AddingTurnsNothing(m: Mix, lanes: AmMixing.Lanes, talker: U32, now: Instant)
    ensures AddLanes(m, lanes, talker, now).phase == m.phase
  {
    if lanes != [] {
      AddingTurnsNothing(m, lanes[..|lanes| - 1], talker, now);
    }
  }

  /** A collision has one tone, from its first mixed sample to its last; the next starts afresh. */
  lemma {:induction false} OneTonePerCollision(beat: real -> int, tg: Id, arrivals: seq<Arrival>)
    ensures RunTap(beat, tg, arrivals).phase == PhaseAt(0.0, BeatSoFar(beat, tg, arrivals))
  {
    hide Collision;
    hide AmMixing.Drain;
    hide AmMixing.Flush;
    hide AddLanes;
    hide Present;
    hide PhaseAt;
    if arrivals == [] {
      PhaseStart(0.0);
    } else {
      var before, a := arrivals[..|arrivals| - 1], arrivals[|arrivals| - 1];
      if Collision(a.routing, tg) {
        OneTonePerCollision(beat, tg, before);
        var m := RunTap(beat, tg, before);
        AddingTurnsNothing(m, a.lanes, a.talker, a.now);
        var m1 := AddLanes(m, a.lanes, a.talker, a.now);
        DrainTurnsThePhase(m1, beat, a.now);
        PhaseAdds(0.0, BeatSoFar(beat, tg, before), BeatIn(Present(m1, a.now), AmMixing.Drain(m1, beat, a.now).0));
      } else {
        PhaseStart(0.0);
      }
    }
  }

  // -- Whoever is not on AM -------------------------------------------------

  /** A mixer holds nothing but AM. */
  ghost predicate OnlyAm(q: Queues) {
    forall k :: k in q ==> k.0.mode == Am
  }

  lemma {:induction false} AddsOnlyAm(m: Mix, lanes: AmMixing.Lanes, talker: U32, now: Instant)
    requires OnlyAm(m.queues)
    ensures OnlyAm(AddLanes(m, lanes, talker, now).queues)
  {
    if lanes != [] {
      AddsOnlyAm(m, lanes[..|lanes| - 1], talker, now);
    }
  }

  lemma NotHeard(lanes: AmMixing.Lanes, key: LegKey)
    requires key.mode != Am && forall i :: 0 <= i < |lanes| ==> lanes[i].0.mode == Am
    ensures Matching(lanes, key) == []
  {
    NothingMatches(lanes, key);
  }

  lemma DrainKeepsOnlyAm(m: Mix, beat: real -> int, now: Instant)
    requires OnlyAm(m.queues)
    ensures OnlyAm(AmMixing.Drain(m, beat, now).1.queues)
  {
    hide DrainFrom;
  }

  lemma StepKeepsOnlyAm(beat: real -> int, m: Mix, tg: Id, a: Arrival)
    requires OnlyAm(m.queues)
    ensures OnlyAm(TapStep(beat, m, tg, a).1.queues)
  {
    hide AddLanes;
    hide Collision;
    hide DrainFrom;
    hide FlushFrom;
    AddsOnlyAm(m, a.lanes, a.talker, a.now);
  }

  /** Digital and FM listeners are sent exactly what was rendered for them, collision or
      not, at its start, in its midst and at its end. */
  lemma OthersHearWhatWasRendered(beat: real -> int, m: Mix, tg: Id, a: Arrival, lane: LegKey)
    requires lane.mode != Am && OnlyAm(m.queues)
    ensures Matching(TapStep(beat, m, tg, a).0, lane) == Matching(a.lanes, lane)
  {
    hide AddLanes;
    hide Collision;
    hide Matching;
    hide AmMixing.Drain;
    hide AmMixing.Flush;
    if Collision(a.routing, tg) {
      var m1 := AddLanes(m, a.lanes, a.talker, a.now);
      var mixed := AmMixing.Drain(m1, beat, a.now).0;
      AddsOnlyAm(m, a.lanes, a.talker, a.now);
      DrainsItsOwn(m1, beat, a.now);
      NotHeard(mixed, lane);
      MatchingConcat(mixed, Clean(a.lanes), lane);
      CleanStaysClean(a.lanes, lane);
    } else {
      var held := AmMixing.Flush(m).0;
      FlushesItsOwn(m);
      NotHeard(held, lane);
      MatchingConcat(held, a.lanes, lane);
    }
  }

  lemma DrainsItsOwn(m: Mix, beat: real -> int, now: Instant)
    requires OnlyAm(m.queues)
    ensures var out := AmMixing.Drain(m, beat, now).0; forall i :: 0 <= i < |out| ==> out[i].0.mode == Am
  {
    hide DrainFrom;
    var q := Present(m, now);
    DrainKeys(q, beat, LanesOf(q), m.phase);
  }

  lemma FlushesItsOwn(m: Mix)
    requires OnlyAm(m.queues)
    ensures var out := AmMixing.Flush(m).0; forall i :: 0 <= i < |out| ==> out[i].0.mode == Am
  {
    hide FlushFrom;
    FlushKeys(m.queues, LanesOf(m.queues));
  }

  lemma {:induction false} RunKeepsOnlyAm(beat: real -> int, tg: Id, arrivals: seq<Arrival>)
    ensures OnlyAm(RunTap(beat, tg, arrivals).queues)
  {
    hide TapStep;
    if arrivals != [] {
      RunKeepsOnlyAm(beat, tg, arrivals[..|arrivals| - 1]);
      StepKeepsOnlyAm(beat, RunTap(beat, tg, arrivals[..|arrivals| - 1]), tg, arrivals[|arrivals| - 1]);
    }
  }

  /** Over any packets whatever: the collision on the frequency is not audible elsewhere. */
  lemma CollisionsStayOnAm(beat: real -> int, tg: Id, arrivals: seq<Arrival>, i: nat, lane: LegKey)
    requires i < |arrivals| && lane.mode != Am
    ensures Matching(TapStep(beat, RunTap(beat, tg, arrivals[..i]), tg, arrivals[i]).0, lane) ==
            Matching(arrivals[i].lanes, lane)
  {
    hide TapStep;
    RunKeepsOnlyAm(beat, tg, arrivals[..i]);
    OthersHearWhatWasRendered(beat, RunTap(beat, tg, arrivals[..i]), tg, arrivals[i], lane);
  }

  // -- Every sample once ----------------------------------------------------

  ghost function SpokenIn(a: Arrival, k: (LegKey, U32)): seq<Sample> {
    if a.talker == k.1 then PcmFor(a.lanes, k.0) else []
  }

  /** Everything this talker ever sent under this rendering. */
  ghost function Spoken(arrivals: seq<Arrival>, k: (LegKey, U32)): seq<Sample> {
    if arrivals == [] then []
    else Spoken(arrivals[..|arrivals| - 1], k) + SpokenIn(arrivals[|arrivals| - 1], k)
  }

  ghost function SoundedIn(m: Mix, tg: Id, a: Arrival, k: (LegKey, U32)): seq<Sample> {
    Queued(Mixed(m, tg, a), k) + (if a.talker == k.1 then Straight(tg, a, k.0) else [])
  }

  /** Everything of it that went out, mixed or straight. */
  ghost function Sounded(beat: real -> int, tg: Id, arrivals: seq<Arrival>, k: (LegKey, U32)): seq<Sample> {
    if arrivals == [] then []
    else
      var before := arrivals[..|arrivals| - 1];
      Sounded(beat, tg, before, k) + SoundedIn(RunTap(beat, tg, before), tg, arrivals[|arrivals| - 1], k)
  }

  /** What the mixer gives up on: queued by a talker silent for too long of a collision. */
  ghost function LostIn(m: Mix, tg: Id, a: Arrival, k: (LegKey, U32)): seq<Sample> {
    if Collision(a.routing, tg) then Dropped(AddLanes(m, a.lanes, a.talker, a.now), a.now, k) else []
  }

  ghost function LostCount(beat: real -> int, tg: Id, arrivals: seq<Arrival>, k: (LegKey, U32)): nat {
    if arrivals == [] then 0
    else
      var before := arrivals[..|arrivals| - 1];
      LostCount(beat, tg, before, k) + |LostIn(RunTap(beat, tg, before), tg, arrivals[|arrivals| - 1], k)|
  }

  lemma ArrivalSplits(beat: real -> int, m: Mix, tg: Id, a: Arrival, k: (LegKey, U32))
    requires k.0.mode == Am
    ensures Queued(m.queues, k) + SpokenIn(a, k) ==
            if Collision(a.routing, tg) then
              SoundedIn(m, tg, a, k) + LostIn(m, tg, a, k) + Queued(TapStep(beat, m, tg, a).1.queues, k)
            else SoundedIn(m, tg, a, k)
  {
    hide AmMixing.Drain;
    hide Collision;
    if Collision(a.routing, tg) {
      EachJoinsItsQueue(m, a.lanes, a.talker, a.now, k);
      hide AddLanes;
      hide Shares;
      hide Dropped;
      DrainSplits(AddLanes(m, a.lanes, a.talker, a.now), beat, a.now, k);
    }
  }

  lemma {:induction false} Accounts(beat: real -> int, tg: Id, arrivals: seq<Arrival>, k: (LegKey, U32))
    requires k.0.mode == Am
    ensures var left := Queued(RunTap(beat, tg, arrivals).queues, k);
            && |Spoken(arrivals, k)| == |Sounded(beat, tg, arrivals, k)| + LostCount(beat, tg, arrivals, k) + |left|
            && (LostCount(beat, tg, arrivals, k) == 0 ==> Spoken(arrivals, k) == Sounded(beat, tg, arrivals, k) + left)
  {
    hide TapStep;
    hide SoundedIn;
    hide SpokenIn;
    hide LostIn;
    if arrivals != [] {
      var before, a := arrivals[..|arrivals| - 1], arrivals[|arrivals| - 1];
      Accounts(beat, tg, before, k);
      var m := RunTap(beat, tg, before);
      ArrivalSplits(beat, m, tg, a, k);
      LostOnlyColliding(beat, m, tg, a, k);
      var left := Queued(TapStep(beat, m, tg, a).1.queues, k);
      var out, lost := SoundedIn(m, tg, a, k), LostIn(m, tg, a, k);
      assert Queued(m.queues, k) + SpokenIn(a, k) == out + lost + left;
      if |lost| == 0 {
        assert Queued(m.queues, k) + SpokenIn(a, k) == out + left;
        Regroup(Sounded(beat, tg, before, k), Queued(m.queues, k), SpokenIn(a, k), out, left);
      }
    }
  }

  lemma LostOnlyColliding(beat: real -> int, m: Mix, tg: Id, a: Arrival, k: (LegKey, U32))
    ensures !Collision(a.routing, tg) ==>
      LostIn(m, tg, a, k) == [] && Queued(TapStep(beat, m, tg, a).1.queues, k) == []
  {
  }

  /** No packet finds this talker with samples queued and silent for too long. */
  ghost predicate NeverGivenUpOn(beat: real -> int, tg: Id, arrivals: seq<Arrival>, k: (LegKey, U32)) {
    forall i :: 0 <= i < |arrivals| ==> LostIn(RunTap(beat, tg, arrivals[..i]), tg, arrivals[i], k) == []
  }

  lemma {:induction false} LostNothingIff(beat: real -> int, tg: Id, arrivals: seq<Arrival>, k: (LegKey, U32))
    ensures LostCount(beat, tg, arrivals, k) == 0 <==> NeverGivenUpOn(beat, tg, arrivals, k)
  {
    hide LostIn;
    hide RunTap;
    if arrivals != [] {
      var n := |arrivals| - 1;
      var before := arrivals[..n];
      LostNothingIff(beat, tg, before, k);
      assert forall i :: 0 <= i < n ==> before[..i] == arrivals[..i];
      if NeverGivenUpOn(beat, tg, before, k) && LostIn(RunTap(beat, tg, before), tg, arrivals[n], k) == [] {
        forall i | 0 <= i < |arrivals| ensures LostIn(RunTap(beat, tg, arrivals[..i]), tg, arrivals[i], k) == [] {
          if i < n {
            assert LostIn(RunTap(beat, tg, before[..i]), tg, before[i], k) == [];
          }
        }
      }
      if NeverGivenUpOn(beat, tg, arrivals, k) {
        forall i | 0 <= i < n ensures LostIn(RunTap(beat, tg, before[..i]), tg, before[i], k) == [] {
          assert LostIn(RunTap(beat, tg, arrivals[..i]), tg, arrivals[i], k) == [];
        }
      }
    }
  }

  /** Collisions come and go: every sample a talker sends under an AM rendering goes out or
      is still queued, in order and once, exactly when the mixer never gives up on it. */
  lemma EverySampleOnceIff(beat: real -> int, tg: Id, arrivals: seq<Arrival>, k: (LegKey, U32))
    requires k.0.mode == Am
    ensures Spoken(arrivals, k) ==
            Sounded(beat, tg, arrivals, k) + Queued(RunTap(beat, tg, arrivals).queues, k)
            <==> NeverGivenUpOn(beat, tg, arrivals, k)
  {
    hide RunTap;
    hide Spoken;
    hide Sounded;
    hide LostCount;
    hide NeverGivenUpOn;
    Accounts(beat, tg, arrivals, k);
    LostNothingIff(beat, tg, arrivals, k);
  }

  // -- Never silent for long ------------------------------------------------

  predicate HasAm(lanes: AmMixing.Lanes) {
    exists i :: 0 <= i < |lanes| && lanes[i].0.mode == Am
  }

  /** When this talker was last heard on AM since the collision began. */
  ghost function LastHeard(tg: Id, arrivals: seq<Arrival>, t: U32): Option<Instant> {
    if arrivals == [] then None
    else
      var a := arrivals[|arrivals| - 1];
      if !Collision(a.routing, tg) then None
      else if a.talker == t && HasAm(a.lanes) then Some(a.now)
      else LastHeard(tg, arrivals[..|arrivals| - 1], t)
  }

  /** While colliding, never more than the limit since it was last heard. */
  ghost predicate NeverSilentForLong(tg: Id, arrivals: seq<Arrival>, t: U32) {
    forall i :: 0 <= i < |arrivals| && Collision(arrivals[i].routing, tg) ==>
      var last := LastHeard(tg, arrivals[..i + 1], t);
      last.Some? ==> Recent(arrivals[i].now, last.value)
  }

  lemma {:induction false} AddLanesSeen(m: Mix, lanes: AmMixing.Lanes, talker: U32, now: Instant)
    ensures AddLanes(m, lanes, talker, now).seen == if HasAm(lanes) then m.seen[talker := now] else m.seen
  {
    if lanes != [] {
      var front := lanes[..|lanes| - 1];
      AddLanesSeen(m, front, talker, now);
      assert HasAm(lanes) <==> HasAm(front) || lanes[|lanes| - 1].0.mode == Am by {
        if HasAm(front) {
          var i :| 0 <= i < |front| && front[i].0.mode == Am;
          assert lanes[i].0.mode == Am;
        }
        if i :| 0 <= i < |lanes| && lanes[i].0.mode == Am && i < |front| {
          assert front[i].0.mode == Am;
        }
      }
    }
  }

  lemma {:induction false} AddLanesQueuesSeen(m: Mix, lanes: AmMixing.Lanes, talker: U32, now: Instant)
    requires forall k :: k in m.queues ==> k.1 in m.seen
    ensures var m' := AddLanes(m, lanes, talker, now); forall k :: k in m'.queues ==> k.1 in m'.seen
  {
    if lanes != [] {
      AddLanesQueuesSeen(m, lanes[..|lanes| - 1], talker, now);
    }
  }

  function SeenAt(m: Mix, t: U32): Option<Instant> {
    if t in m.seen then Some(m.seen[t]) else None
  }

  lemma {:induction false} QueuesSeen(beat: real -> int, tg: Id, arrivals: seq<Arrival>)
    ensures var m := RunTap(beat, tg, arrivals); forall k :: k in m.queues ==> k.1 in m.seen
  {
    hide Collision;
    hide AddLanes;
    hide DrainFrom;
    hide FlushFrom;
    if arrivals != [] {
      var before, a := arrivals[..|arrivals| - 1], arrivals[|arrivals| - 1];
      QueuesSeen(beat, tg, before);
      AddLanesQueuesSeen(RunTap(beat, tg, before), a.lanes, a.talker, a.now);
    }
  }

  lemma NeverSilentBefore(tg: Id, arrivals: seq<Arrival>, n: nat, t: U32)
    requires NeverSilentForLong(tg, arrivals, t) && n <= |arrivals|
    ensures NeverSilentForLong(tg, arrivals[..n], t)
  {
    hide LastHeard;
    hide Collision;
    hide Recent;
    var before := arrivals[..n];
    forall i | 0 <= i < n && Collision(before[i].routing, tg)
      ensures var last := LastHeard(tg, before[..i + 1], t); last.Some? ==> Recent(before[i].now, last.value)
    {
      assert before[..i + 1] == arrivals[..i + 1] && before[i] == arrivals[i];
    }
  }

  /** The mixer remembers when it last heard somebody as the packets have it. */
  lemma {:induction false} SeenIsLastHeard(beat: real -> int, tg: Id, arrivals: seq<Arrival>, t: U32)
    requires NeverSilentForLong(tg, arrivals, t)
    ensures SeenAt(RunTap(beat, tg, arrivals), t) == LastHeard(tg, arrivals, t)
  {
    hide Collision;
    hide HasAm;
    hide Recent;
    hide AddLanes;
    hide DrainFrom;
    hide FlushFrom;
    if arrivals != [] {
      var n := |arrivals| - 1;
      var before, a := arrivals[..n], arrivals[n];
      NeverSilentBefore(tg, arrivals, n, t);
      SeenIsLastHeard(beat, tg, before, t);
      AddLanesSeen(RunTap(beat, tg, before), a.lanes, a.talker, a.now);
      assert arrivals[..n + 1] == arrivals;
    }
  }

  /** So it never gives up on such a talker. */
  lemma NeverSilentNeverGivenUpOn(beat: real -> int, tg: Id, arrivals: seq<Arrival>, k: (LegKey, U32))
    requires NeverSilentForLong(tg, arrivals, k.1)
    ensures NeverGivenUpOn(beat, tg, arrivals, k)
  {
    hide RunTap;
    hide Collision;
    hide HasAm;
    hide Recent;
    hide AddLanes;
    hide Dropped;
    forall i | 0 <= i < |arrivals| ensures LostIn(RunTap(beat, tg, arrivals[..i]), tg, arrivals[i], k) == [] {
      var m, a := RunTap(beat, tg, arrivals[..i]), arrivals[i];
      if Collision(a.routing, tg) {
        NeverSilentBefore(tg, arrivals, i, k.1);
        SeenIsLastHeard(beat, tg, arrivals[..i], k.1);
        QueuesSeen(beat, tg, arrivals[..i]);
        AddLanesSeen(m, a.lanes, a.talker, a.now);
        AddLanesQueuesSeen(m, a.lanes, a.talker, a.now);
        assert arrivals[..i + 1][..i] == arrivals[..i];
        RecentIsKept(AddLanes(m, a.lanes, a.talker, a.now), a.now, k);
      }
    }
  }

  /** A talker that is never silent for long loses nothing, whoever it collides with. */
  lemma EverySampleOnce(beat: real -> int, tg: Id, arrivals: seq<Arrival>, k: (LegKey, U32))
    requires k.0.mode == Am && NeverSilentForLong(tg, arrivals, k.1)
    ensures Spoken(arrivals, k) == Sounded(beat, tg, arrivals, k) + Queued(RunTap(beat, tg, arrivals).queues, k)
  {
    hide RunTap;
    hide Spoken;
    hide Sounded;
    hide NeverGivenUpOn;
    hide NeverSilentForLong;
    EverySampleOnceIff(beat, tg, arrivals, k);
    NeverSilentNeverGivenUpOn(beat, tg, arrivals, k);
  }

  lemma OffAirIsUntouched(beat: real -> int, m: Mix, tg: Id, a: Arrival, listeners: seq<Listener>, sent: seq<Packet>)
    requires OnlyAm(m.queues) && Delivered(sent, TapStep(beat, m, tg, a).0, listeners)
    ensures forall l :: l in listeners && l.mode != Am ==>
      Received(sent, l.client) == Matching(a.lanes, LegKey(l.mode, LaneOf(l.quality), l.bridged))
  {
    hide TapStep;
    hide OnlyAm;
    forall l | l in listeners && l.mode != Am
      ensures Received(sent, l.client) == Matching(a.lanes, LegKey(l.mode, LaneOf(l.quality), l.bridged))
    {
      var i :| 0 <= i < |listeners| && listeners[i] == l;
      OthersHearWhatWasRendered(beat, m, tg, a, KeyOf(SinkOf(l)));
    }
  }

  class Tap {
    const beat: real -> int
    /** Frequencies people are colliding on, each with what it is mixing. */
    var mixers: map<Id, AmMix>

    ghost predicate Valid()
      reads this, mixers.Values
    {
      && (forall k :: -BEAT_PEAK <= beat(k) <= BEAT_PEAK)
      && (forall tg :: tg in mixers ==> mixers[tg].Valid() && mixers[tg].beat == beat && OnlyAm(mixers[tg].queues))
      && (forall a, b :: a in mixers && b in mixers && a != b ==> mixers[a] != mixers[b])
    }

    ghost function MixOf(tg: Id): Mix
      reads this, if tg in mixers then {mixers[tg]} else {}
    {
      if tg in mixers then mixers[tg].Abs() else NO_MIX
    }

    constructor (beat: real -> int)
      requires forall k :: -BEAT_PEAK <= beat(k) <= BEAT_PEAK
      ensures Valid() && mixers == map[]
    {
      this.beat := beat;
      mixers := map[];
    }

    /** While a collision lasts: the AM renderings through the mixer, the rest untouched. */
    method Collide(tg: Id, talker: U32, lanes: AmMixing.Lanes, now: Instant) returns (out: AmMixing.Lanes)
      requires Valid()
      modifies this, if tg in mixers then {mixers[tg]} else {}
      ensures Valid() && mixers.Keys == old(mixers).Keys + {tg}
      ensures forall t :: t in old(mixers) ==> mixers[t] == old(mixers)[t]
      ensures tg !in old(mixers) ==> fresh(mixers[tg])
      ensures var (mixed, m') := AmMixing.Drain(AddLanes(old(MixOf(tg)), lanes, talker, now), beat, now);
              out == mixed + Clean(lanes) && MixOf(tg) == m'
    {
      hide AmMixing.Drain;
      var mix: AmMix;
      if tg in mixers {
        mix := mixers[tg];
      } else {
        mix := new AmMix(beat);
      }
      ghost var was := mix.Abs();
      assert was == old(MixOf(tg));
      var rest := AddAll(mix, talker, lanes, now);
      var mixed := mix.Drain(now);
      AddsOnlyAm(was, lanes, talker, now);
      DrainKeepsOnlyAm(AddLanes(was, lanes, talker, now), beat, now);
      mixers := mixers[tg := mix];
      out := mixed + rest;
      assert MixOf(tg) == mix.Abs();
    }

    method AddAll(mix: AmMix, talker: U32, lanes: AmMixing.Lanes, now: Instant) returns (rest: AmMixing.Lanes)
      modifies mix
      ensures mix.Abs() == AddLanes(old(mix.Abs()), lanes, talker, now) && rest == Clean(lanes)
    {
      hide AmMixing.Add;
      rest := [];
      for i := 0 to |lanes|
        invariant mix.Abs() == AddLanes(old(mix.Abs()), lanes[..i], talker, now)
        invariant rest == Clean(lanes[..i])
      {
        assert lanes[..i + 1][..i] == lanes[..i];
        var (key, pcm) := lanes[i];
        if key.mode == Am {
          mix.Add(key, talker, pcm, now);
        } else {
          rest := rest + [lanes[i]];
        }
      }
      assert lanes[..|lanes|] == lanes;
    }

    /** Once nobody collides: what the mixer still holds first, then what was rendered. */
    method Settle(tg: Id, lanes: AmMixing.Lanes) returns (out: AmMixing.Lanes)
      requires Valid()
      modifies this, if tg in mixers then {mixers[tg]} else {}
      ensures Valid() && mixers == old(mixers) - {tg}
      ensures out == AmMixing.Flush(old(MixOf(tg))).0 + lanes
    {
      if tg in mixers {
        var mix := mixers[tg];
        mixers := mixers - {tg};
        var held := mix.Flush();
        out := held + lanes;
      } else {
        out := lanes;
        assert mixers == mixers - {tg};
        NothingLeft(map[]);
        assert LanesOf(map[]) == {} && out == [] + lanes;
      }
    }

    /** One packet's renderings, mixed if the router says people collide, and sent. */
    method MixAndDeliver(router: Router, tg: Id, talker: U32, lanes: AmMixing.Lanes,
                         listeners: seq<Listener>, now: Instant)
      returns (sent: seq<Packet>)
      requires Valid() && DistinctClients(listeners)
      modifies this, if tg in mixers then {mixers[tg]} else {}
      ensures Valid()
      ensures var step := TapStep(beat, old(MixOf(tg)), tg, Arrival(old(router.Abs()), talker, lanes, now));
              MixOf(tg) == step.1 && Delivered(sent, step.0, listeners)
      ensures forall l :: l in listeners && l.mode != Am ==>
        Received(sent, l.client) == Matching(lanes, LegKey(l.mode, LaneOf(l.quality), l.bridged))
      ensures mixers.Keys == if Collision(old(router.Abs()), tg) then old(mixers).Keys + {tg}
                             else old(mixers).Keys - {tg}
      ensures forall t :: t in mixers && t in old(mixers) ==> mixers[t] == old(mixers)[t]
    {
      hide AmMixing.Drain;
      hide AmMixing.Flush;
      hide Delivered;
      hide Collision;
      var collision := router.AmCollision(tg);
      var out;
      if collision {
        out := Collide(tg, talker, lanes, now);
      } else {
        out := Settle(tg, lanes);
      }
      sent := Deliver(out, listeners);
      ghost var a := Arrival(old(router.Abs()), talker, lanes, now);
      OffAirIsUntouched(beat, old(MixOf(tg)), tg, a, listeners, sent);
    }
  }
}
