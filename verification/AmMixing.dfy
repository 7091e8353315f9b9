/**
 * The AM mixer as a state machine: per-rendering, per-talker queues, drained a
 * whole frame at a time as the sum of everybody transmitting.
 */
module AmMixing {
  import opened Types

  /** Rust's `i16`. */
  type Sample = x: int | -0x8000 <= x < 0x8000

  /** One rendering: what two listeners share when they hear identical audio. */
  datatype LegKey = LegKey(mode: Mode, lane: Quality, bridged: bool)

  const AM_FRAME: nat := 160
  const AM_GONE_MS: nat := 120
  const BEAT_PEAK: int := 2200

  /** A full turn as a 32-bit float, and how far the beat's phase moves in one sample. */
  const TAU: real := 6.283185482025146484375
  const BEAT_STEP: real := TAU * 620.0 / 8000.0

  type Queues = map<(LegKey, U32), seq<Sample>>

  function Clamp(sum: int): Sample {
    if sum < -0x8000 then -0x8000 else if sum > 0x7FFF then 0x7FFF else sum
  }

  // -- The order renderings are drained in ----------------------------------

  /** The derived ordering of the key: mode, then lane, then bridged. */
  function Rank(k: LegKey): nat {
    (match k.mode case P25 => 0 case Fm => 1 case Am => 2) * 512 + k.lane * 2 + (if k.bridged then 1 else 0)
  }

  lemma RankIsInjective(a: LegKey, b: LegKey)
    requires Rank(a) == Rank(b)
    ensures a == b
  {
  }

  lemma {:induction false} LowestExists(lanes: set<LegKey>) returns (m: LegKey)
    requires lanes != {}
    ensures m in lanes && forall o :: o in lanes ==> Rank(m) <= Rank(o)
    decreases lanes
  {
    hide Rank;
    m :| m in lanes;
    var rest := lanes - {m};
    if rest != {} {
      var other := LowestExists(rest);
      if Rank(other) <= Rank(m) {
        m := other;
      }
    }
  }

  ghost function Lowest(lanes: set<LegKey>): (m: LegKey)
    requires lanes != {}
    ensures m in lanes && forall o :: o in lanes ==> Rank(m) <= Rank(o)
  {
    assert exists m :: m in lanes && forall o :: o in lanes ==> Rank(m) <= Rank(o) by {
      var m := LowestExists(lanes);
    }
    var m :| m in lanes && forall o :: o in lanes ==> Rank(m) <= Rank(o);
    m
  }

  lemma LowestIs(lanes: set<LegKey>, lane: LegKey)
    requires lane in lanes && forall o :: o in lanes ==> Rank(lane) <= Rank(o)
    ensures Lowest(lanes) == lane
  {
    RankIsInjective(lane, Lowest(lanes));
  }

  // -- Sums -----------------------------------------------------------------

  function LanesOf(q: Queues): set<LegKey> {
    set k | k in q :: k.0
  }

  function TalkersIn(q: Queues, lane: LegKey): set<U32> {
    set k | k in q && k.0 == lane :: k.1
  }

  lemma TalkersAre(q: Queues, lane: LegKey)
    ensures forall t :: t in TalkersIn(q, lane) <==> (lane, t) in q
    ensures lane in LanesOf(q) <==> TalkersIn(q, lane) != {}
  {
    forall t ensures t in TalkersIn(q, lane) <==> (lane, t) in q {
      if (lane, t) in q {
        assert (lane, t).1 in TalkersIn(q, lane);
      }
    }
    if lane in LanesOf(q) {
      var k :| k in q && k.0 == lane;
      assert k.1 in TalkersIn(q, lane);
    }
    if TalkersIn(q, lane) != {} {
      var t :| t in TalkersIn(q, lane);
      assert (lane, t).0 in LanesOf(q);
    }
  }

  /** A talker's next sample but `i`; silence once its queue is dry. */
  function At(q: Queues, lane: LegKey, t: U32, i: nat): Sample {
    if (lane, t) in q && i < |q[(lane, t)]| then q[(lane, t)][i] else 0
  }

  ghost function SumAt(q: Queues, lane: LegKey, ts: set<U32>, i: nat): int {
    if ts == {} then 0
    else
      var t :| t in ts;
      At(q, lane, t, i) + SumAt(q, lane, ts - {t}, i)
  }

  /** The sum does not depend on the order the talkers come in. */
  lemma {:induction false} SumAnyOrder(q: Queues, lane: LegKey, ts: set<U32>, i: nat, t: U32)
    requires t in ts
    ensures SumAt(q, lane, ts, i) == At(q, lane, t, i) + SumAt(q, lane, ts - {t}, i)
    decreases ts
  {
    var p :| p in ts && SumAt(q, lane, ts, i) == At(q, lane, p, i) + SumAt(q, lane, ts - {p}, i);
    if p != t {
      SumAnyOrder(q, lane, ts - {p}, i, t);
      SumAnyOrder(q, lane, ts - {t}, i, p);
      assert ts - {p} - {t} == ts - {t} - {p};
    }
  }

  lemma {:induction false} SumSame(q: Queues, q': Queues, lane: LegKey, ts: set<U32>, i: nat, i': nat)
    requires forall t :: t in ts ==> At(q, lane, t, i) == At(q', lane, t, i')
    ensures SumAt(q, lane, ts, i) == SumAt(q', lane, ts, i')
    decreases ts
  {
    if ts != {} {
      var t :| t in ts;
      SumAnyOrder(q, lane, ts, i, t);
      SumAnyOrder(q', lane, ts, i', t);
      SumSame(q, q', lane, ts - {t}, i, i');
    }
  }

  // -- One rendering --------------------------------------------------------

  function Min(a: nat, b: nat): nat {
    if a < b then a else b
  }

  /** `n` samples consumed from every talker of one rendering. */
  function Advance(q: Queues, lane: LegKey, n: nat): Queues {
    map k | k in q :: if k.0 == lane then q[k][Min(n, |q[k]|)..] else q[k]
  }

  /** One sample popped from every talker of a rendering but those still to do. */
  function PoppedSome(q: Queues, lane: LegKey, todo: set<U32>): Queues {
    map k | k in q :: if k.0 == lane && k.1 !in todo then q[k][Min(1, |q[k]|)..] else q[k]
  }

  lemma PopOne(q: Queues, lane: LegKey, todo: set<U32>, t: U32)
    requires t in todo && (lane, t) in q
    ensures PoppedSome(q, lane, todo).Keys == q.Keys && PoppedSome(q, lane, todo)[(lane, t)] == q[(lane, t)]
    ensures var popped, queue := PoppedSome(q, lane, todo), q[(lane, t)];
            PoppedSome(q, lane, todo - {t}) == if queue == [] then popped else popped[(lane, t) := queue[1..]]
  {
  }

  lemma PoppedAll(q: Queues, lane: LegKey)
    ensures PoppedSome(q, lane, {}) == Advance(q, lane, 1)
    ensures PoppedSome(q, lane, TalkersIn(q, lane)) == q
  {
    TalkersAre(q, lane);
    assert forall k :: k in q && k.0 == lane ==> (lane, k.1) == k;
  }

  lemma SumNone(q: Queues, lane: LegKey, i: nat)
    ensures SumAt(q, lane, {}, i) == 0
  {
  }

  lemma AdvanceTwice(q: Queues, lane: LegKey, a: nat, b: nat)
    ensures Advance(Advance(q, lane, a), lane, b) == Advance(q, lane, a + b)
  {
  }

  /** Every talker of the rendering has `n` whole frames. */
  ghost predicate HasFrames(q: Queues, lane: LegKey, n: nat) {
    forall t :: (lane, t) in q ==> AM_FRAME * n <= |q[(lane, t)]|
  }

  /** The smallest whole-frame count of any talker. */
  ghost predicate IsFrameCount(q: Queues, lane: LegKey, n: nat) {
    HasFrames(q, lane, n) && !HasFrames(q, lane, n + 1)
  }

  lemma AtMostTheCount(q: Queues, lane: LegKey, n: nat, m: nat)
    requires IsFrameCount(q, lane, n) && HasFrames(q, lane, m)
    ensures m <= n
  {
    var t :| (lane, t) in q && AM_FRAME * (n + 1) > |q[(lane, t)]|;
    assert AM_FRAME * m <= |q[(lane, t)]|;
  }

  lemma OneFrameCount(q: Queues, lane: LegKey, n: nat, m: nat)
    requires IsFrameCount(q, lane, n) && IsFrameCount(q, lane, m)
    ensures n == m
  {
    AtMostTheCount(q, lane, n, m);
    AtMostTheCount(q, lane, m, n);
  }

  lemma {:induction false} FramesFrom(q: Queues, lane: LegKey, t: U32, n: nat)
    requires (lane, t) in q && HasFrames(q, lane, n)
    ensures exists m :: IsFrameCount(q, lane, m)
    decreases |q[(lane, t)]| - n
  {
    if HasFrames(q, lane, n + 1) {
      FramesFrom(q, lane, t, n + 1);
    } else {
      assert IsFrameCount(q, lane, n);
    }
  }

  ghost function FrameCount(q: Queues, lane: LegKey): (n: nat)
    requires lane in LanesOf(q)
    ensures IsFrameCount(q, lane, n)
  {
    TalkersAre(q, lane);
    var t :| t in TalkersIn(q, lane);
    FramesFrom(q, lane, t, 0);
    var n :| IsFrameCount(q, lane, n);
    n
  }

  // -- The beat note --------------------------------------------------------

  /** One sample on, wrapped back by a turn once past it. */
  function NextPhase(phase: real): real {
    var moved := phase + BEAT_STEP;
    if moved > TAU then moved - TAU else moved
  }

  /** The phase of the `n`th sample of beat played from here. */
  function PhaseAt(phase: real, n: nat): real {
    if n == 0 then phase else NextPhase(PhaseAt(phase, n - 1))
  }

  ghost predicate TurnedBack(phase: real, n: nat, turns: nat) {
    PhaseAt(phase, n) == phase + TAU * (620.0 * n as real / 8000.0 - turns as real)
  }

  lemma {:induction false} PhaseAdds(phase: real, a: nat, b: nat)
    ensures PhaseAt(PhaseAt(phase, a), b) == PhaseAt(phase, a + b)
  {
    hide NextPhase;
    if b > 0 {
      PhaseAdds(phase, a, b - 1);
    }
  }

  /** One unbroken tone of 620 Hz, however long it lasts and wherever it is interrupted:
      the wrapped phase is the true one less a whole number of turns. */
  lemma {:induction false} BeatIsOneTone(phase: real, n: nat)
    requires 0.0 <= phase <= TAU
    ensures 0.0 <= PhaseAt(phase, n) <= TAU
    ensures exists turns: nat :: TurnedBack(phase, n, turns)
  {
    if n == 0 {
      assert TurnedBack(phase, 0, 0);
    } else {
      BeatIsOneTone(phase, n - 1);
      var turns: nat :| TurnedBack(phase, n - 1, turns);
      assert TurnedBack(phase, n, turns) || TurnedBack(phase, n, turns + 1);
    }
  }

  /** The mixture at `i`: the clamped sum, and the beat only when carriers collide. */
  ghost function MixedAt(q: Queues, lane: LegKey, beat: real -> int, phase: real, i: nat): Sample {
    var sum := SumAt(q, lane, TalkersIn(q, lane), i);
    Clamp(if |TalkersIn(q, lane)| > 1 then sum + beat(PhaseAt(phase, i + 1)) else sum)
  }

  ghost function LanePcm(q: Queues, lane: LegKey, beat: real -> int, phase: real, n: nat): seq<Sample> {
    seq(n, i requires 0 <= i => MixedAt(q, lane, beat, phase, i))
  }

  ghost function PhaseAfter(q: Queues, lane: LegKey, phase: real, n: nat): real {
    if |TalkersIn(q, lane)| > 1 then PhaseAt(phase, n) else phase
  }

  // -- A whole drain --------------------------------------------------------

  type Lanes = seq<(LegKey, seq<Sample>)>

  /** What the renderings still to do will emit, lowest first, and where the beat is left. */
  ghost function DrainFrom(q: Queues, beat: real -> int, todo: set<LegKey>, phase: real): (Lanes, real)
    requires todo <= LanesOf(q)
  {
    if todo == {} then ([], phase)
    else
      var lane := Lowest(todo);
      var n := AM_FRAME * FrameCount(q, lane);
      var (rest, phase') := DrainFrom(q, beat, todo - {lane}, PhaseAfter(q, lane, phase, n));
      ((if n == 0 then [] else [(lane, LanePcm(q, lane, beat, phase, n))]) + rest, phase')
  }

  /** Everything every rendering has consumed of its own queues. */
  ghost function Consumed(q: Queues): Queues {
    map k | k in q :: q[k][Min(Taken(q, k), |q[k]|)..]
  }

  ghost function Taken(q: Queues, k: (LegKey, U32)): nat
    requires k in q
  {
    TalkersAre(q, k.0);
    AM_FRAME * FrameCount(q, k.0)
  }

  lemma TakenFits(q: Queues, k: (LegKey, U32))
    requires k in q
    ensures Taken(q, k) <= |q[k]|
  {
    TalkersAre(q, k.0);
    assert (k.0, k.1) == k;
  }

  function Recent(now: Instant, at: Instant): bool {
    DurationSince(now, at) / 1_000_000 <= AM_GONE_MS
  }

  function StillSeen(seen: map<U32, Instant>, now: Instant): map<U32, Instant> {
    map t | t in seen && Recent(now, seen[t]) :: seen[t]
  }

  function StillQueued(q: Queues, seen: map<U32, Instant>): Queues {
    map k | k in q && k.1 in seen :: q[k]
  }

  // -- Whole runs -----------------------------------------------------------

  datatype Mix = Mix(queues: Queues, seen: map<U32, Instant>, phase: real)

  datatype MixOp =
    | AddOp(lane: LegKey, talker: U32, pcm: seq<Sample>, now: Instant)
    | DrainOp(now: Instant)
    | FlushOp

  function Queued(q: Queues, k: (LegKey, U32)): seq<Sample> {
    if k in q then q[k] else []
  }

  function Add(m: Mix, lane: LegKey, talker: U32, pcm: seq<Sample>, now: Instant): Mix {
    m.(seen := m.seen[talker := now],
       queues := m.queues[(lane, talker) := Queued(m.queues, (lane, talker)) + pcm])
  }

  ghost function Present(m: Mix, now: Instant): Queues {
    StillQueued(m.queues, StillSeen(m.seen, now))
  }

  ghost function Drain(m: Mix, beat: real -> int, now: Instant): (Lanes, Mix) {
    var q := Present(m, now);
    var (out, phase) := DrainFrom(q, beat, LanesOf(q), m.phase);
    (out, Mix(Consumed(q), StillSeen(m.seen, now), phase))
  }

  ghost function Flush(m: Mix): (Lanes, Mix) {
    (FlushFrom(m.queues, LanesOf(m.queues)), Mix(map[], map[], m.phase))
  }

  ghost function StepMix(m: Mix, beat: real -> int, op: MixOp): Mix {
    match op
    case AddOp(lane, talker, pcm, now) => Add(m, lane, talker, pcm, now)
    case DrainOp(now) => Drain(m, beat, now).1
    case FlushOp => Flush(m).1
  }

  ghost function RunMix(beat: real -> int, ops: seq<MixOp>): Mix {
    if ops == [] then Mix(map[], map[], 0.0)
    else StepMix(RunMix(beat, ops[..|ops| - 1]), beat, ops[|ops| - 1])
  }

  function AddedBy(op: MixOp, k: (LegKey, U32)): seq<Sample> {
    if op.AddOp? && (op.lane, op.talker) == k then op.pcm else []
  }

  /** Everything one talker ever added to one rendering. */
  function Added(ops: seq<MixOp>, k: (LegKey, U32)): seq<Sample> {
    if ops == [] then [] else Added(ops[..|ops| - 1], k) + AddedBy(ops[|ops| - 1], k)
  }

  /** What one step consumes of every queue it mixes. */
  ghost function Shares(m: Mix, op: MixOp): Queues {
    match op
    case AddOp(_, _, _, _) => map[]
    case DrainOp(now) => var q := Present(m, now); map k | k in q :: q[k][..Min(Taken(q, k), |q[k]|)]
    case FlushOp => m.queues
  }

  /** Everything that went out of it, step by step. */
  ghost function TakenStream(beat: real -> int, ops: seq<MixOp>, k: (LegKey, U32)): seq<Sample> {
    if ops == [] then []
    else
      var before := ops[..|ops| - 1];
      TakenStream(beat, before, k) + Queued(Shares(RunMix(beat, before), ops[|ops| - 1]), k)
  }

  /** What a drain throws away: the queue of a talker not heard from lately. */
  ghost function Dropped(m: Mix, now: Instant, k: (LegKey, U32)): seq<Sample> {
    if k in Present(m, now) then [] else Queued(m.queues, k)
  }

  /** Nothing else goes missing in a drain, and nothing stays that went. */
  lemma DrainSplits(m: Mix, beat: real -> int, now: Instant, k: (LegKey, U32))
    ensures Queued(m.queues, k) ==
            Queued(Shares(m, DrainOp(now)), k) + Dropped(m, now, k) + Queued(Drain(m, beat, now).1.queues, k)
  {
    hide Taken;
    hide DrainFrom;
    hide StillSeen;
    var q := Present(m, now);
    assert Drain(m, beat, now).1.queues == Consumed(q);
    if k in q {
      assert q[k] == m.queues[k];
    }
  }

  lemma StepSplits(m: Mix, beat: real -> int, op: MixOp, k: (LegKey, U32))
    ensures Queued(m.queues, k) + AddedBy(op, k) ==
            Queued(Shares(m, op), k) + (if op.DrainOp? then Dropped(m, op.now, k) else []) +
            Queued(StepMix(m, beat, op).queues, k)
  {
    hide Drain;
    hide Present;
    match op
    case AddOp(lane, talker, pcm, now) =>
    case DrainOp(now) =>
      hide Shares;
      hide Dropped;
      DrainSplits(m, beat, now, k);
    case FlushOp =>
  }

  /** After a flush nobody is queued and nobody is waited for. */
  lemma FlushedIsEmpty(m: Mix, k: (LegKey, U32), t: U32)
    ensures var m' := Flush(m).1; k !in m'.queues && t !in m'.seen && m'.phase == m.phase
  {
  }

  /** A sum that fits goes out as it is, and one that does not as the end of its range. */
  lemma ClampKeepsWhatFits(sum: int)
    ensures -32768 <= sum <= 32767 ==> Clamp(sum) == sum
    ensures sum > 32767 ==> Clamp(sum) == 32767
    ensures sum < -32768 ==> Clamp(sum) == -32768
  {
  }

  /** Who a drain still waits for: whoever was heard from less than 121 ms ago, and nobody else. */
  lemma WaitedForIff(m: Mix, now: Instant, k: (LegKey, U32))
    ensures k in Present(m, now) <==>
            k in m.queues && k.1 in m.seen && now < m.seen[k.1] + 121_000_000
    ensures k in Present(m, now) ==> Present(m, now)[k] == m.queues[k]
  {
  }

  /** It waits for no more than that: once everybody on a rendering has 160 samples queued,
      160 go out, of every queue alike, and what goes out is a multiple of 160. */
  lemma WholeFramesGoOut(m: Mix, beat: real -> int, now: Instant, lane: LegKey)
    ensures var q, pcm := Present(m, now), PcmFor(Drain(m, beat, now).0, lane);
            && |pcm| % 160 == 0
            && (|pcm| >= 160 <==> lane in LanesOf(q) && forall t :: (lane, t) in q ==> |q[(lane, t)]| >= 160)
  {
    hide DrainFrom;
    hide Present;
    hide FrameCount;
    hide LanePcm;
    hide PcmFor;
    hide BeatIn;
    hide Ahead;
    hide PhaseAt;
    hide LanesOf;
    var q := Present(m, now);
    DrainEmits(q, beat, LanesOf(q), m.phase, lane);
    if lane in LanesOf(q) {
      PcmMore(q, lane, beat, PhaseAt(m.phase, BeatIn(q, Ahead(Drain(m, beat, now).0, lane))),
              AM_FRAME * FrameCount(q, lane));
      OneFrameReady(q, lane);
    }
  }

  lemma OneFrameReady(q: Queues, lane: LegKey)
    requires lane in LanesOf(q)
    ensures FrameCount(q, lane) >= 1 <==> forall t :: (lane, t) in q ==> |q[(lane, t)]| >= 160
  {
    var n := FrameCount(q, lane);
    hide FrameCount;
    if HasFrames(q, lane, 1) {
      AtMostTheCount(q, lane, n, 1);
    }
    if n >= 1 {
      assert forall t :: (lane, t) in q ==> |q[(lane, t)]| >= AM_FRAME * n >= 160;
    }
  }

  /** No drain finds this talker gone. */
  ghost predicate NeverExpires(beat: real -> int, ops: seq<MixOp>, t: U32) {
    forall i :: 0 <= i < |ops| && ops[i].DrainOp? ==>
      var m := RunMix(beat, ops[..i]);
      t in m.seen ==> Recent(ops[i].now, m.seen[t])
  }

  lemma {:induction false} QueuesAreSeen(beat: real -> int, ops: seq<MixOp>, k: (LegKey, U32))
    ensures k in RunMix(beat, ops).queues ==> k.1 in RunMix(beat, ops).seen
  {
    if ops != [] {
      QueuesAreSeen(beat, ops[..|ops| - 1], k);
    }
  }

  lemma RecentIsKept(m: Mix, now: Instant, k: (LegKey, U32))
    requires k in m.queues ==> k.1 in m.seen && Recent(now, m.seen[k.1])
    ensures Dropped(m, now, k) == []
  {
  }

  lemma Regroup(out: seq<Sample>, queued: seq<Sample>, added: seq<Sample>, share: seq<Sample>, left: seq<Sample>)
    requires queued + added == share + left
    ensures out + queued + added == out + share + left
  {
    assert out + queued + added == out + (queued + added) == out + (share + left) == out + share + left;
  }

  lemma NeverExpiresBefore(beat: real -> int, ops: seq<MixOp>, t: U32)
    requires NeverExpires(beat, ops, t) && ops != []
    ensures NeverExpires(beat, ops[..|ops| - 1], t)
    ensures var op, m := ops[|ops| - 1], RunMix(beat, ops[..|ops| - 1]);
            op.DrainOp? && t in m.seen ==> Recent(op.now, m.seen[t])
  {
    hide RunMix;
    hide Recent;
    var before := ops[..|ops| - 1];
    assert forall i :: 0 <= i < |before| ==> before[..i] == ops[..i] && before[i] == ops[i];
  }

  /** Conservation: while a talker never expires, every sample it added to a rendering
      is either consumed or still queued, in order and exactly once. */
  lemma {:induction false} NothingLostOrRepeated(beat: real -> int, ops: seq<MixOp>, k: (LegKey, U32))
    requires NeverExpires(beat, ops, k.1)
    ensures Added(ops, k) == TakenStream(beat, ops, k) + Queued(RunMix(beat, ops).queues, k)
  {
    hide StepMix;
    hide Shares;
    hide Recent;
    hide Dropped;
    if ops != [] {
      var n := |ops| - 1;
      var before, op := ops[..n], ops[n];
      NeverExpiresBefore(beat, ops, k.1);
      hide NeverExpires;
      NothingLostOrRepeated(beat, before, k);
      var m := RunMix(beat, before);
      StepSplits(m, beat, op, k);
      if op.DrainOp? {
        QueuesAreSeen(beat, before, k);
        RecentIsKept(m, op.now, k);
      }
      var share, left := Queued(Shares(m, op), k), Queued(StepMix(m, beat, op).queues, k);
      hide Queued;
      hide AddedBy;
      assert Queued(m.queues, k) + AddedBy(op, k) == share + left;
      Regroup(TakenStream(beat, before, k), Queued(m.queues, k), AddedBy(op, k), share, left);
    }
  }

  /** A drain never waits longer than it must: afterwards some talker of every rendering
      is short of a frame, and what was taken is the same whole number of frames from all. */
  lemma DrainLeavesLessThanAFrame(q: Queues, lane: LegKey)
    requires lane in LanesOf(q)
    ensures exists t :: (lane, t) in q && |Consumed(q)[(lane, t)]| < AM_FRAME
    ensures forall t :: (lane, t) in q ==>
      |q[(lane, t)]| == AM_FRAME * FrameCount(q, lane) + |Consumed(q)[(lane, t)]|
  {
    TalkersAre(q, lane);
    var n := FrameCount(q, lane);
    var t :| (lane, t) in q && AM_FRAME * (n + 1) > |q[(lane, t)]|;
    forall u | (lane, u) in q ensures |q[(lane, u)]| == AM_FRAME * n + |Consumed(q)[(lane, u)]| {
      TakenFits(q, (lane, u));
    }
  }

  /** The beat never moves a sample by more than its peak, and is absent with one radio up. */
  lemma BeatIsBounded(q: Queues, lane: LegKey, beat: real -> int, phase: real, i: nat)
    requires forall k :: -BEAT_PEAK <= beat(k) <= BEAT_PEAK
    ensures var clean := Clamp(SumAt(q, lane, TalkersIn(q, lane), i));
            && -BEAT_PEAK <= MixedAt(q, lane, beat, phase, i) - clean <= BEAT_PEAK
            && (|TalkersIn(q, lane)| <= 1 ==> MixedAt(q, lane, beat, phase, i) == clean)
  {
    assert -BEAT_PEAK <= beat(PhaseAt(phase, i + 1)) <= BEAT_PEAK;
  }

  // -- One rendering does not see another -----------------------------------

  ghost predicate SameLane(q: Queues, q': Queues, lane: LegKey) {
    forall t :: ((lane, t) in q <==> (lane, t) in q') && ((lane, t) in q ==> q'[(lane, t)] == q[(lane, t)])
  }

  lemma LaneIsLocal(q: Queues, q': Queues, lane: LegKey, beat: real -> int, phase: real, n: nat)
    requires SameLane(q, q', lane) && lane in LanesOf(q)
    ensures lane in LanesOf(q') && TalkersIn(q', lane) == TalkersIn(q, lane)
    ensures FrameCount(q', lane) == FrameCount(q, lane)
    ensures LanePcm(q', lane, beat, phase, n) == LanePcm(q, lane, beat, phase, n)
    ensures forall i: nat :: SumAt(q', lane, TalkersIn(q, lane), i) == SumAt(q, lane, TalkersIn(q, lane), i)
  {
    TalkersAre(q, lane);
    TalkersAre(q', lane);
    assert TalkersIn(q', lane) == TalkersIn(q, lane);
    assert IsFrameCount(q', lane, FrameCount(q, lane));
    OneFrameCount(q', lane, FrameCount(q, lane), FrameCount(q', lane));
    forall i: nat ensures SumAt(q', lane, TalkersIn(q, lane), i) == SumAt(q, lane, TalkersIn(q, lane), i) {
      SumSame(q, q', lane, TalkersIn(q, lane), i, i);
    }
  }

  lemma AdvancedSum(q: Queues, lane: LegKey, ts: set<U32>, a: nat, i: nat)
    ensures SumAt(Advance(q, lane, a), lane, ts, i) == SumAt(q, lane, ts, a + i)
  {
    SumSame(Advance(q, lane, a), q, lane, ts, i, a + i);
  }

  lemma AdvanceShape(q: Queues, lane: LegKey, n: nat)
    ensures Advance(q, lane, 0) == q
    ensures Advance(q, lane, n).Keys == q.Keys
    ensures TalkersIn(Advance(q, lane, n), lane) == TalkersIn(q, lane)
    ensures forall t :: (lane, t) in q ==>
      Advance(q, lane, n)[(lane, t)] == q[(lane, t)][Min(n, |q[(lane, t)]|)..]
  {
    assert Advance(q, lane, 0) == q;
    TalkersAre(q, lane);
    TalkersAre(Advance(q, lane, n), lane);
    assert forall t :: t in TalkersIn(Advance(q, lane, n), lane) <==> t in TalkersIn(q, lane);
  }

  ghost predicate AllReady(cur: Queues, lane: LegKey, talkers: set<U32>) {
    forall t :: t in talkers ==> (lane, t) in cur && |cur[(lane, t)]| >= AM_FRAME
  }

  /** Everybody has another frame queued exactly when everybody started with one more. */
  lemma ReadyMeansOneMore(q: Queues, lane: LegKey, n: nat)
    requires HasFrames(q, lane, n)
    ensures AllReady(Advance(q, lane, AM_FRAME * n), lane, TalkersIn(q, lane)) <==> HasFrames(q, lane, n + 1)
  {
    hide Advance;
    hide TalkersIn;
    AdvanceShape(q, lane, AM_FRAME * n);
    TalkersAre(q, lane);
    var cur := Advance(q, lane, AM_FRAME * n);
    forall t | (lane, t) in q
      ensures |cur[(lane, t)]| >= AM_FRAME <==> |q[(lane, t)]| >= AM_FRAME * (n + 1)
    {
    }
    if HasFrames(q, lane, n + 1) {
      assert AllReady(cur, lane, TalkersIn(q, lane));
    }
  }

  lemma PcmMore(q: Queues, lane: LegKey, beat: real -> int, start: real, n: nat)
    ensures LanePcm(q, lane, beat, start, 0) == []
    ensures LanePcm(q, lane, beat, start, n + 1) ==
            LanePcm(q, lane, beat, start, n) + [MixedAt(q, lane, beat, start, n)]
    ensures |LanePcm(q, lane, beat, start, n)| == n
  {
  }

  /** Part way through a drain: `todo` have not been touched yet. */
  ghost predicate Underway(cur: Queues, q: Queues, todo: set<LegKey>) {
    && cur.Keys == q.Keys
    && forall k :: k in q ==> cur[k] == if k.0 in todo then q[k] else Consumed(q)[k]
  }

  lemma UnderwayStart(q: Queues)
    ensures Underway(q, q, LanesOf(q))
  {
    forall k | k in q ensures k.0 in LanesOf(q) {
    }
  }

  lemma UnderwayLane(cur: Queues, q: Queues, todo: set<LegKey>, lane: LegKey)
    requires Underway(cur, q, todo) && lane in todo
    ensures SameLane(q, cur, lane)
  {
  }

  lemma OneLaneDone(was: Queues, cur: Queues, q: Queues, todo: set<LegKey>, lane: LegKey)
    requires lane in LanesOf(q) && lane in todo && Underway(was, q, todo)
    requires cur == Advance(was, lane, AM_FRAME * FrameCount(q, lane))
    ensures Underway(cur, q, todo - {lane})
  {
    hide FrameCount;
    forall k | k in q ensures cur[k] == if k.0 in todo - {lane} then q[k] else Consumed(q)[k] {
    }
  }

  lemma AllLanesDone(cur: Queues, q: Queues)
    requires Underway(cur, q, {})
    ensures cur == Consumed(q)
  {
  }

  lemma DrainFromStep(q: Queues, beat: real -> int, todo: set<LegKey>, phase: real)
    requires todo != {} && todo <= LanesOf(q)
    ensures var lane := Lowest(todo);
            var n := AM_FRAME * FrameCount(q, lane);
            var rest := DrainFrom(q, beat, todo - {lane}, PhaseAfter(q, lane, phase, n));
            DrainFrom(q, beat, todo, phase) ==
              ((if n == 0 then [] else [(lane, LanePcm(q, lane, beat, phase, n))]) + rest.0, rest.1)
  {
  }

  /** What has come out so far, completed by the renderings still to do, is the whole drain. */
  ghost predicate Emitting(q: Queues, beat: real -> int, start: real, todo: set<LegKey>, out: Lanes, phase: real)
    requires todo <= LanesOf(q)
  {
    var whole, rest := DrainFrom(q, beat, LanesOf(q), start), DrainFrom(q, beat, todo, phase);
    whole.0 == out + rest.0 && whole.1 == rest.1
  }

  lemma EmitStart(q: Queues, beat: real -> int, start: real)
    ensures Emitting(q, beat, start, LanesOf(q), [], start)
  {
  }

  lemma EmitOne(q: Queues, beat: real -> int, start: real, todo: set<LegKey>, lane: LegKey, out: Lanes, phase: real)
    requires todo <= LanesOf(q) && lane in todo && lane == Lowest(todo) && Emitting(q, beat, start, todo, out, phase)
    ensures var n := AM_FRAME * FrameCount(q, lane);
            var pcm := LanePcm(q, lane, beat, phase, n);
            Emitting(q, beat, start, todo - {lane}, if pcm == [] then out else out + [(lane, pcm)],
                     PhaseAfter(q, lane, phase, n))
  {
    hide Lowest;
    hide FrameCount;
    hide LanePcm;
    hide DrainFrom;
    var n := AM_FRAME * FrameCount(q, lane);
    var pcm := LanePcm(q, lane, beat, phase, n);
    PcmMore(q, lane, beat, phase, n);
    DrainFromStep(q, beat, todo, phase);
    var rest := DrainFrom(q, beat, todo - {lane}, PhaseAfter(q, lane, phase, n)).0;
    assert [] + rest == rest && out + ([(lane, pcm)] + rest) == out + [(lane, pcm)] + rest;
  }

  lemma EmitDone(q: Queues, beat: real -> int, start: real, out: Lanes, phase: real)
    requires Emitting(q, beat, start, {}, out, phase)
    ensures DrainFrom(q, beat, LanesOf(q), start) == (out, phase)
  {
    assert out + [] == out;
  }

  // -- A flush --------------------------------------------------------------

  ghost predicate IsLongest(q: Queues, lane: LegKey, n: nat) {
    && (forall t :: (lane, t) in q ==> |q[(lane, t)]| <= n)
    && (n > 0 ==> exists t :: (lane, t) in q && |q[(lane, t)]| == n)
  }

  ghost function PaddedPcm(q: Queues, lane: LegKey, n: nat): seq<Sample> {
    seq(n, i requires 0 <= i => Clamp(SumAt(q, lane, TalkersIn(q, lane), i)))
  }

  lemma PaddedMore(q: Queues, lane: LegKey, n: nat)
    ensures PaddedPcm(q, lane, 0) == []
    ensures PaddedPcm(q, lane, n + 1) == PaddedPcm(q, lane, n) + [Clamp(SumAt(q, lane, TalkersIn(q, lane), n))]
  {
  }

  ghost function Longest(q: Queues, lane: LegKey): (n: nat)
    ensures IsLongest(q, lane, n)
  {
    TalkersAre(q, lane);
    LongestAmong(q, lane, TalkersIn(q, lane));
    var n :| LongestOf(q, lane, TalkersIn(q, lane), n);
    n
  }

  ghost predicate LongestOf(q: Queues, lane: LegKey, ts: set<U32>, n: nat)
    requires forall t :: t in ts ==> (lane, t) in q
  {
    && (forall t :: t in ts ==> |q[(lane, t)]| <= n)
    && (n > 0 ==> exists t :: t in ts && |q[(lane, t)]| == n)
  }

  lemma {:induction false} LongestAmong(q: Queues, lane: LegKey, ts: set<U32>)
    requires forall t :: t in ts ==> (lane, t) in q
    ensures exists n :: LongestOf(q, lane, ts, n)
    decreases ts
  {
    if ts == {} {
      assert LongestOf(q, lane, ts, 0);
    } else {
      var t :| t in ts;
      LongestAmong(q, lane, ts - {t});
      var n :| LongestOf(q, lane, ts - {t}, n);
      assert LongestOf(q, lane, ts, if |q[(lane, t)]| > n then |q[(lane, t)]| else n);
    }
  }

  lemma LongestIs(q: Queues, lane: LegKey, n: nat)
    requires IsLongest(q, lane, n)
    ensures Longest(q, lane) == n
  {
  }

  /** Each rendering once, lowest first: the sum padded to its longest queue, if any. */
  ghost function FlushFrom(q: Queues, todo: set<LegKey>): Lanes
    decreases todo
  {
    if todo == {} then []
    else
      var lane := Lowest(todo);
      var n := Longest(q, lane);
      (if n == 0 then [] else [(lane, PaddedPcm(q, lane, n))]) + FlushFrom(q, todo - {lane})
  }

  lemma NothingLeft(q: Queues)
    ensures FlushFrom(q, {}) == []
  {
  }

  lemma OthersSame(q: Queues, was: Queues, cur: Queues, todo: set<LegKey>, lane: LegKey, n: nat)
    requires forall l :: l in todo ==> SameLane(q, was, l)
    requires cur == Advance(was, lane, n)
    ensures forall l :: l in todo - {lane} ==> SameLane(q, cur, l)
  {
    forall l | l in todo - {lane} ensures SameLane(q, cur, l) {
      assert SameLane(q, was, l);
    }
  }

  lemma FlushFromStep(q: Queues, todo: set<LegKey>)
    requires todo != {}
    ensures var lane := Lowest(todo);
            var n := Longest(q, lane);
            FlushFrom(q, todo) == (if n == 0 then [] else [(lane, PaddedPcm(q, lane, n))]) + FlushFrom(q, todo - {lane})
  {
  }

  lemma PaddedIsLocal(q: Queues, was: Queues, lane: LegKey, pcm: seq<Sample>)
    requires SameLane(q, was, lane) && lane in LanesOf(q)
    requires IsLongest(was, lane, |pcm|) && pcm == PaddedPcm(was, lane, |pcm|)
    ensures Longest(q, lane) == |pcm| && pcm == PaddedPcm(q, lane, |pcm|)
  {
    hide FrameCount;
    hide SumAt;
    LaneIsLocal(q, was, lane, _ => 0, 0.0, 0);
    assert IsLongest(q, lane, |pcm|);
    LongestIs(q, lane, |pcm|);
  }

  /** One rendering flushed, `todo` still to come after it. */
  lemma FlushedStep(q: Queues, was: Queues, todo: set<LegKey>, lane: LegKey, out: Lanes, pcm: seq<Sample>)
    requires todo != {} && todo <= LanesOf(q) && lane in todo && Lowest(todo) == lane
    requires SameLane(q, was, lane)
    requires IsLongest(was, lane, |pcm|) && pcm == PaddedPcm(was, lane, |pcm|)
    requires FlushFrom(q, LanesOf(q)) == out + FlushFrom(q, todo)
    ensures var out' := if pcm == [] then out else out + [(lane, pcm)];
            FlushFrom(q, LanesOf(q)) == out' + FlushFrom(q, todo - {lane})
  {
    hide FlushFrom;
    hide PaddedPcm;
    hide IsLongest;
    hide Longest;
    hide Lowest;
    hide SameLane;
    PaddedIsLocal(q, was, lane, pcm);
    FlushFromStep(q, todo);
    var rest := FlushFrom(q, todo - {lane});
    assert [] + rest == rest && out + ([(lane, pcm)] + rest) == out + [(lane, pcm)] + rest;
  }

  /** The order renderings go out in: by modulation, then lane, then side of the patch. */
  predicate ComesFirst(a: LegKey, b: LegKey) {
    if a.mode != b.mode then a.mode == P25 || b.mode == Am
    else if a.lane != b.lane then a.lane < b.lane
    else !a.bridged && b.bridged
  }

  lemma RankOrders(a: LegKey, b: LegKey)
    ensures Rank(a) < Rank(b) <==> ComesFirst(a, b)
  {
  }

  ghost predicate InOrder(out: Lanes, among: set<LegKey>) {
    && (forall i :: 0 <= i < |out| ==> out[i].0 in among && out[i].1 != [])
    && forall i, j :: 0 <= i < j < |out| ==> ComesFirst(out[i].0, out[j].0)
  }

  lemma OneThenTheRest(todo: set<LegKey>, pcm: seq<Sample>, rest: Lanes)
    requires todo != {} && InOrder(rest, todo - {Lowest(todo)})
    ensures InOrder((if |pcm| == 0 then [] else [(Lowest(todo), pcm)]) + rest, todo)
  {
    var lane := Lowest(todo);
    hide Lowest;
    forall k | k in todo && k != lane ensures ComesFirst(lane, k) {
      RankOrders(lane, k);
      if Rank(lane) == Rank(k) {
        RankIsInjective(lane, k);
      }
    }
    hide Rank;
    var first: Lanes := if |pcm| == 0 then [] else [(lane, pcm)];
    var out := first + rest;
    forall i | 0 <= i < |out| ensures out[i].0 in todo && out[i].1 != [] {
      if i >= |first| {
        assert out[i] == rest[i - |first|];
      }
    }
    forall i, j | 0 <= i < j < |out| ensures ComesFirst(out[i].0, out[j].0) {
      assert out[j] == rest[j - |first|];
      if i >= |first| {
        assert out[i] == rest[i - |first|];
      }
    }
  }

  /** A drain puts out no rendering but those it holds, each at most once, in that order. */
  lemma {:induction false} DrainKeys(q: Queues, beat: real -> int, todo: set<LegKey>, phase: real)
    requires todo <= LanesOf(q)
    ensures InOrder(DrainFrom(q, beat, todo, phase).0, todo)
    decreases todo
  {
    hide FrameCount;
    hide LanePcm;
    if todo != {} {
      DrainFromStep(q, beat, todo, phase);
      var lane := Lowest(todo);
      var n := AM_FRAME * FrameCount(q, lane);
      var phase' := PhaseAfter(q, lane, phase, n);
      DrainKeys(q, beat, todo - {lane}, phase');
      PcmMore(q, lane, beat, phase, n);
      OneThenTheRest(todo, LanePcm(q, lane, beat, phase, n), DrainFrom(q, beat, todo - {lane}, phase').0);
    }
  }

  lemma {:induction false} FlushKeys(q: Queues, todo: set<LegKey>)
    requires todo <= LanesOf(q)
    ensures InOrder(FlushFrom(q, todo), todo)
    decreases todo
  {
    hide Longest;
    hide PaddedPcm;
    if todo != {} {
      FlushFromStep(q, todo);
      var lane := Lowest(todo);
      FlushKeys(q, todo - {lane});
      PaddedLong(q, lane, Longest(q, lane));
      OneThenTheRest(todo, PaddedPcm(q, lane, Longest(q, lane)), FlushFrom(q, todo - {lane}));
    }
  }

  // -- What comes out under one rendering -----------------------------------

  /** The audio under one key, if there is any. */
  function PcmFor(lanes: Lanes, key: LegKey): seq<Sample> {
    if lanes == [] then []
    else
      var front, last := PcmFor(lanes[..|lanes| - 1], key), lanes[|lanes| - 1];
      if last.0 == key then front + last.1 else front
  }

  lemma {:induction false} PcmForConcat(a: Lanes, b: Lanes, key: LegKey)
    ensures PcmFor(a + b, key) == PcmFor(a, key) + PcmFor(b, key)
  {
    if b == [] {
      assert a + b == a;
    } else {
      var front, last := b[..|b| - 1], b[|b| - 1];
      assert (a + b)[..|a + b| - 1] == a + front;
      PcmForConcat(a, front, key);
    }
  }

  lemma PcmForFirst(key: LegKey, pcm: seq<Sample>, rest: Lanes, lane: LegKey)
    ensures PcmFor((if |pcm| == 0 then [] else [(key, pcm)]) + rest, lane) ==
            if key == lane then pcm + PcmFor(rest, lane) else PcmFor(rest, lane)
  {
    var first: Lanes := if |pcm| == 0 then [] else [(key, pcm)];
    PcmForConcat(first, rest, lane);
    if pcm != [] {
      assert first[..0] == [];
      assert PcmFor(first[..0], lane) == [];
    }
  }

  /** How many of these samples carry the beat: those of renderings two or more talkers share. */
  ghost function BeatIn(q: Queues, out: Lanes): nat {
    if out == [] then 0
    else BeatIn(q, out[..|out| - 1]) + (if |TalkersIn(q, out[|out| - 1].0)| > 1 then |out[|out| - 1].1| else 0)
  }

  lemma {:induction false} BeatInBoth(q: Queues, a: Lanes, b: Lanes)
    ensures BeatIn(q, a + b) == BeatIn(q, a) + BeatIn(q, b)
  {
    if b == [] {
      assert a + b == a;
    } else {
      var front, last := b[..|b| - 1], b[|b| - 1];
      assert (a + b)[..|a + b| - 1] == a + front;
      BeatInBoth(q, a, front);
    }
  }

  /** What goes out ahead of a rendering. */
  function Ahead(out: Lanes, lane: LegKey): Lanes {
    if out == [] || out[0].0 == lane then [] else [out[0]] + Ahead(out[1..], lane)
  }

  lemma BeatInFirst(q: Queues, key: LegKey, pcm: seq<Sample>, rest: Lanes, lane: LegKey)
    ensures var first: Lanes := if |pcm| == 0 then [] else [(key, pcm)];
            && BeatIn(q, first + rest) == (if |TalkersIn(q, key)| > 1 then |pcm| else 0) + BeatIn(q, rest)
            && (pcm != [] && key == lane ==> Ahead(first + rest, lane) == [])
            && (key != lane ==>
                  BeatIn(q, Ahead(first + rest, lane)) ==
                  (if |TalkersIn(q, key)| > 1 then |pcm| else 0) + BeatIn(q, Ahead(rest, lane)))
  {
    hide TalkersIn;
    var first: Lanes := if |pcm| == 0 then [] else [(key, pcm)];
    BeatInBoth(q, first, rest);
    if pcm == [] {
      assert first + rest == rest;
    } else {
      assert first[..0] == [] && BeatIn(q, first[..0]) == 0;
      assert BeatIn(q, first) == if |TalkersIn(q, key)| > 1 then |pcm| else 0;
      assert (first + rest)[0] == (key, pcm) && (first + rest)[1..] == rest;
      BeatInBoth(q, first, Ahead(rest, lane));
    }
  }

  /** The beat after some samples of one rendering. */
  lemma PhaseOver(q: Queues, lane: LegKey, phase: real, n: nat, more: nat)
    ensures PhaseAt(PhaseAfter(q, lane, phase, n), more) ==
            PhaseAt(phase, (if |TalkersIn(q, lane)| > 1 then n else 0) + more)
  {
    PhaseAdds(phase, n, more);
  }

  /** A drain of these renderings puts out each once: its mixture, with the beat taken up
      where the renderings ahead of it left off. */
  ghost predicate EmitsEach(q: Queues, beat: real -> int, todo: set<LegKey>, phase: real, lane: LegKey, out: (Lanes, real))
    requires todo <= LanesOf(q)
  {
    && out.1 == PhaseAt(phase, BeatIn(q, out.0))
    && (lane !in todo ==> PcmFor(out.0, lane) == [])
    && (lane in todo ==>
          PcmFor(out.0, lane) ==
          LanePcm(q, lane, beat, PhaseAt(phase, BeatIn(q, Ahead(out.0, lane))), AM_FRAME * FrameCount(q, lane)))
  }

  lemma {:induction false} DrainEmits(q: Queues, beat: real -> int, todo: set<LegKey>, phase: real, lane: LegKey)
    requires todo <= LanesOf(q)
    ensures EmitsEach(q, beat, todo, phase, lane, DrainFrom(q, beat, todo, phase))
    decreases todo
  {
    hide FrameCount;
    hide Lowest;
    hide LanePcm;
    hide TalkersIn;
    if todo == {} {
      PhaseStart(phase);
    } else {
      hide EmitsEach;
      var key := Lowest(todo);
      var n := AM_FRAME * FrameCount(q, key);
      var rest := DrainFrom(q, beat, todo - {key}, PhaseAfter(q, key, phase, n));
      DrainFromStep(q, beat, todo, phase);
      hide DrainFrom;
      DrainEmits(q, beat, todo - {key}, PhaseAfter(q, key, phase, n), lane);
      PcmMore(q, key, beat, phase, n);
      EmitsOneMore(q, beat, todo, key, phase, lane, rest);
    }
  }

  lemma EmitsOneMore(q: Queues, beat: real -> int, todo: set<LegKey>, key: LegKey, phase: real, lane: LegKey,
                     rest: (Lanes, real))
    requires todo <= LanesOf(q) && key in todo
    requires EmitsEach(q, beat, todo - {key}, PhaseAfter(q, key, phase, AM_FRAME * FrameCount(q, key)), lane, rest)
    ensures var pcm := LanePcm(q, key, beat, phase, AM_FRAME * FrameCount(q, key));
            EmitsEach(q, beat, todo, phase, lane, ((if |pcm| == 0 then [] else [(key, pcm)]) + rest.0, rest.1))
  {
    hide FrameCount;
    hide MixedAt;
    hide TalkersIn;
    hide PcmFor;
    hide BeatIn;
    hide Ahead;
    hide PhaseAt;
    hide PhaseAfter;
    var n := AM_FRAME * FrameCount(q, key);
    var pcm := LanePcm(q, key, beat, phase, n);
    PcmMore(q, key, beat, phase, n);
    hide LanePcm;
    PcmForFirst(key, pcm, rest.0, lane);
    BeatInFirst(q, key, pcm, rest.0, lane);
    PhaseOver(q, key, phase, n, BeatIn(q, rest.0));
    PhaseOver(q, key, phase, n, BeatIn(q, Ahead(rest.0, lane)));
    if key == lane {
      var first: Lanes := if |pcm| == 0 then [] else [(key, pcm)];
      FirstRendering(q, key, beat, phase, n, Ahead(first + rest.0, lane));
    }
  }

  lemma FirstRendering(q: Queues, lane: LegKey, beat: real -> int, phase: real, n: nat, ahead: Lanes)
    requires n > 0 ==> ahead == []
    ensures LanePcm(q, lane, beat, PhaseAt(phase, BeatIn(q, ahead)), n) == LanePcm(q, lane, beat, phase, n)
  {
    if n == 0 {
      PcmMore(q, lane, beat, phase, 0);
      PcmMore(q, lane, beat, PhaseAt(phase, BeatIn(q, ahead)), 0);
    }
  }

  lemma {:induction false} FlushEmits(q: Queues, todo: set<LegKey>, lane: LegKey)
    requires todo <= LanesOf(q)
    ensures PcmFor(FlushFrom(q, todo), lane) == if lane in todo then PaddedPcm(q, lane, Longest(q, lane)) else []
    decreases todo
  {
    hide Longest;
    hide Lowest;
    hide SumAt;
    if todo != {} {
      FlushFromStep(q, todo);
      var key := Lowest(todo);
      var pcm := PaddedPcm(q, key, Longest(q, key));
      hide FlushFrom;
      hide PaddedPcm;
      PaddedLong(q, key, Longest(q, key));
      FlushEmits(q, todo - {key}, lane);
      PcmForFirst(key, pcm, FlushFrom(q, todo - {key}), lane);
    }
  }

  lemma PaddedLong(q: Queues, lane: LegKey, n: nat)
    ensures |PaddedPcm(q, lane, n)| == n
  {
  }

  /** `pcm` is the clamped sum, sample by sample, of what everybody contributed to this
      rendering, as long as the longest contribution; with a beat when carriers collide. */
  ghost predicate IsMixOf(shares: Queues, lane: LegKey, pcm: seq<Sample>, beat: real -> int, from: Option<real>) {
    && IsLongest(shares, lane, |pcm|)
    && forall i :: 0 <= i < |pcm| ==>
         var sum := SumAt(shares, lane, TalkersIn(shares, lane), i);
         pcm[i] == Clamp(if from.Some? && |TalkersIn(shares, lane)| > 1 then sum + beat(PhaseAt(from.value, i + 1))
                         else sum)
  }

  lemma SharesSum(m: Mix, now: Instant, lane: LegKey, i: nat)
    requires lane in LanesOf(Present(m, now)) && i < AM_FRAME * FrameCount(Present(m, now), lane)
    ensures var q, shares := Present(m, now), Shares(m, DrainOp(now));
            && TalkersIn(shares, lane) == TalkersIn(q, lane)
            && SumAt(shares, lane, TalkersIn(q, lane), i) == SumAt(q, lane, TalkersIn(q, lane), i)
  {
    hide Present;
    hide FrameCount;
    var q, shares := Present(m, now), Shares(m, DrainOp(now));
    TalkersAre(q, lane);
    TalkersAre(shares, lane);
    assert TalkersIn(shares, lane) == TalkersIn(q, lane);
    forall t | t in TalkersIn(q, lane) ensures At(shares, lane, t, i) == At(q, lane, t, i) {
      TakenFits(q, (lane, t));
    }
    SumSame(shares, q, lane, TalkersIn(q, lane), i, i);
  }

  lemma SharesLong(m: Mix, now: Instant, lane: LegKey)
    ensures var q, shares := Present(m, now), Shares(m, DrainOp(now));
            if lane in LanesOf(q) then IsLongest(shares, lane, AM_FRAME * FrameCount(q, lane))
            else IsLongest(shares, lane, 0)
  {
    hide Present;
    hide FrameCount;
    var q, shares := Present(m, now), Shares(m, DrainOp(now));
    TalkersAre(q, lane);
    forall t | (lane, t) in q ensures |shares[(lane, t)]| == Taken(q, (lane, t)) {
      TakenFits(q, (lane, t));
    }
    if lane in LanesOf(q) {
      var t :| t in TalkersIn(q, lane);
      assert (lane, t) in shares && |shares[(lane, t)]| == AM_FRAME * FrameCount(q, lane);
    }
  }

  /** Where the beat stands when a drain comes to one rendering. */
  ghost function BeatFrom(m: Mix, beat: real -> int, now: Instant, lane: LegKey): real {
    PhaseAt(m.phase, BeatIn(Present(m, now), Ahead(Drain(m, beat, now).0, lane)))
  }

  /** What a drain puts out under a rendering is the sum of exactly what it consumed, with
      the beat going on from where it stands. */
  lemma DrainMixesItsShares(m: Mix, beat: real -> int, now: Instant, lane: LegKey)
    ensures IsMixOf(Shares(m, DrainOp(now)), lane, PcmFor(Drain(m, beat, now).0, lane), beat,
                    Some(BeatFrom(m, beat, now, lane)))
  {
    hide Present;
    hide Shares;
    hide DrainFrom;
    hide FrameCount;
    hide SumAt;
    hide PhaseAt;
    hide IsLongest;
    var q, shares := Present(m, now), Shares(m, DrainOp(now));
    DrainEmits(q, beat, LanesOf(q), m.phase, lane);
    SharesLong(m, now, lane);
    var pcm := PcmFor(Drain(m, beat, now).0, lane);
    if lane in LanesOf(q) {
      var n := AM_FRAME * FrameCount(q, lane);
      assert pcm == LanePcm(q, lane, beat, BeatFrom(m, beat, now, lane), n);
      forall i | 0 <= i < n
        ensures TalkersIn(shares, lane) == TalkersIn(q, lane)
        ensures SumAt(shares, lane, TalkersIn(q, lane), i) == SumAt(q, lane, TalkersIn(q, lane), i)
      {
        SharesSum(m, now, lane, i);
      }
    }
  }

  // -- One tone through a whole run -----------------------------------------

  /** How many samples of beat a run has put out. */
  ghost function BeatPlayed(beat: real -> int, ops: seq<MixOp>): nat {
    if ops == [] then 0
    else
      var before, op := ops[..|ops| - 1], ops[|ops| - 1];
      var m := RunMix(beat, before);
      BeatPlayed(beat, before) +
        (if op.DrainOp? then BeatIn(Present(m, op.now), Drain(m, beat, op.now).0) else 0)
  }

  lemma DrainTurnsThePhase(m: Mix, beat: real -> int, now: Instant)
    ensures Drain(m, beat, now).1.phase == PhaseAt(m.phase, BeatIn(Present(m, now), Drain(m, beat, now).0))
  {
    hide DrainFrom;
    hide Present;
    hide PhaseAt;
    var q := Present(m, now);
    DrainEmits(q, beat, LanesOf(q), m.phase, LegKey(Am, 0, false));
  }

  /** The tone never starts again: over any run the phase is that of one tone played from
      the first sample of beat put out to the last. */
  lemma {:induction false} PhaseIsWhatWasPlayed(beat: real -> int, ops: seq<MixOp>)
    ensures RunMix(beat, ops).phase == PhaseAt(0.0, BeatPlayed(beat, ops))
  {
    hide Drain;
    hide Present;
    hide PhaseAt;
    if ops == [] {
      PhaseStart(0.0);
    } else {
      var before, op := ops[..|ops| - 1], ops[|ops| - 1];
      var m := RunMix(beat, before);
      PhaseIsWhatWasPlayed(beat, before);
      if op.DrainOp? {
        DrainTurnsThePhase(m, beat, op.now);
        PhaseAdds(0.0, BeatPlayed(beat, before), BeatIn(Present(m, op.now), Drain(m, beat, op.now).0));
      }
    }
  }

  lemma PhaseStart(phase: real)
    ensures PhaseAt(phase, 0) == phase
  {
  }

  /** And each mixture takes it up there: one drain's first sample follows another's last. */
  lemma BeatNeverRestarts(beat: real -> int, ops: seq<MixOp>, now: Instant, lane: LegKey)
    ensures var m := RunMix(beat, ops);
            var out := Drain(m, beat, now).0;
            var played := BeatPlayed(beat, ops) + BeatIn(Present(m, now), Ahead(out, lane));
            IsMixOf(Shares(m, DrainOp(now)), lane, PcmFor(out, lane), beat, Some(PhaseAt(0.0, played)))
  {
    hide Drain;
    hide Present;
    hide PhaseAt;
    hide IsMixOf;
    hide Shares;
    var m := RunMix(beat, ops);
    PhaseIsWhatWasPlayed(beat, ops);
    DrainMixesItsShares(m, beat, now, lane);
    PhaseAdds(0.0, BeatPlayed(beat, ops), BeatIn(Present(m, now), Ahead(Drain(m, beat, now).0, lane)));
  }

  /** And so is what a flush puts out, with no beat. */
  lemma FlushMixesItsShares(m: Mix, beat: real -> int, lane: LegKey)
    ensures IsMixOf(Shares(m, FlushOp), lane, PcmFor(Flush(m).0, lane), beat, None)
  {
    hide FlushFrom;
    hide SumAt;
    var q := m.queues;
    FlushEmits(q, LanesOf(q), lane);
    TalkersAre(q, lane);
    PaddedLong(q, lane, Longest(q, lane));
  }
}
