/**
 * The slow automatic gain control in front of the vocoder, over the reals: a
 * hysteresis gate, a gain seeded on opening and chased afterwards, and a
 * multiplier ramped across each frame.
 */
module GainControl {

  const TARGET: real := 2000.0
  const MIN_GAIN: real := 0.5
  const MAX_GAIN: real := 6.0
  const GATE_OPEN: real := 220.0
  const GATE_CLOSE: real := 110.0
  const CHASE: real := 0.1
  const LIMIT: real := 32000.0

  datatype Level = Level(gain: real, envelope: real, gate: real, open: bool, applied: real)

  const START := Level(1.0, 0.0, 0.0, false, 0.0)

  function Clamp(x: real, lo: real, hi: real): real
    requires lo <= hi
  {
    if x < lo then lo else if x > hi then hi else x
  }

  /** The gain that would put this envelope at the target. */
  function Want(envelope: real): real {
    Clamp(TARGET / (if envelope > 1.0 then envelope else 1.0), MIN_GAIN, MAX_GAIN)
  }

  function Follow(envelope: real, rms: real): real {
    envelope + (if rms > envelope then 0.5 else 0.05) * (rms - envelope)
  }

  function OpenAfter(open: bool, envelope: real): bool {
    if open then envelope >= GATE_CLOSE else envelope > GATE_OPEN
  }

  function GateAfter(gate: real, open: bool): real {
    var want := if open then 1.0 else 0.0;
    gate + (if want > gate then 0.35 else 0.05) * (want - gate)
  }

  /** One frame whose level is `rms`. */
  function Step(l: Level, rms: real): Level {
    var envelope := Follow(l.envelope, rms);
    var open := OpenAfter(l.open, envelope);
    var gate := GateAfter(l.gate, open);
    var seeded := open && !l.open;
    var gain :=
      if seeded then Want(rms)
      else if envelope > GATE_OPEN then l.gain + CHASE * (Want(envelope) - l.gain)
      else l.gain;
    Level(gain, if seeded then rms else envelope, gate, open, gain * gate)
  }

  function Frames(l: Level, levels: seq<real>): Level {
    if levels == [] then l else Step(Frames(l, levels[..|levels| - 1]), levels[|levels| - 1])
  }

  // -- What always holds ----------------------------------------------------

  ghost predicate InRange(l: Level) {
    && MIN_GAIN <= l.gain <= MAX_GAIN
    && 0.0 <= l.gate <= 1.0
    && 0.0 <= l.applied <= MAX_GAIN
    && 0.0 <= l.envelope
    && (!l.open ==> l.envelope <= GATE_OPEN)
    && (l.open ==> l.envelope >= GATE_CLOSE)
  }

  lemma ProductInRange(gain: real, gate: real)
    requires 0.0 <= gain <= MAX_GAIN && 0.0 <= gate <= 1.0
    ensures 0.0 <= gain * gate <= MAX_GAIN
  {
    NotNegative(gain, gate);
    NotNegative(gain, 1.0 - gate);
    assert gain * (1.0 - gate) == gain - gain * gate;
  }

  lemma NotNegative(a: real, b: real)
    requires a >= 0.0 && b >= 0.0
    ensures a * b >= 0.0
  {
  }

  lemma StepInRange(l: Level, rms: real)
    requires InRange(l) && rms >= 0.0
    ensures InRange(Step(l, rms))
  {
    hide Want;
    assert forall e :: MIN_GAIN <= Want(e) <= MAX_GAIN by {
      forall e ensures MIN_GAIN <= Want(e) <= MAX_GAIN { WantInRange(e); }
    }
    ProductInRange(Step(l, rms).gain, Step(l, rms).gate);
  }

  lemma WantInRange(envelope: real)
    ensures MIN_GAIN <= Want(envelope) <= MAX_GAIN
  {
  }

  /** Over every sequence of frames: gain, gate and envelope stay in range, a closed
      gate means a quiet envelope and an open gate one that is not silent. */
  lemma {:induction false} AlwaysInRange(l: Level, levels: seq<real>)
    requires InRange(l) && forall x :: x in levels ==> x >= 0.0
    ensures InRange(Frames(l, levels))
  {
    hide Step;
    if levels != [] {
      var front := levels[..|levels| - 1];
      assert forall x :: x in front ==> x in levels;
      AlwaysInRange(l, front);
      assert levels[|levels| - 1] in levels;
      StepInRange(Frames(l, front), levels[|levels| - 1]);
    }
  }

  // -- Opening --------------------------------------------------------------

  ghost predicate Steady(levels: seq<real>, rms: real) {
    forall x :: x in levels ==> x == rms
  }

  /** This frame opens the gate. */
  predicate Opens(l: Level, rms: real) {
    !l.open && Follow(l.envelope, rms) > GATE_OPEN
  }

  lemma OpeningSeeds(l: Level, rms: real)
    requires InRange(l) && Opens(l, rms)
    ensures Step(l, rms).open && rms > GATE_OPEN && Step(l, rms).gain == Want(rms) && Step(l, rms).envelope == rms
  {
  }

  lemma SteadyStep(l: Level, rms: real)
    requires l.open && rms > GATE_OPEN && l.envelope == rms && l.gain == Want(rms)
    ensures Step(l, rms).open && Step(l, rms).envelope == rms && Step(l, rms).gain == Want(rms)
  {
  }

  /** From the frame that opens the gate, a steady level keeps exactly the seeded gain
      for any number of frames, whatever the gain was before. */
  lemma {:induction false} SeedStaysPut(l: Level, rms: real, levels: seq<real>)
    requires InRange(l) && Opens(l, rms) && Steady(levels, rms)
    ensures Frames(Step(l, rms), levels).gain == Want(rms)
    ensures Frames(Step(l, rms), levels).open && Frames(Step(l, rms), levels).envelope == rms
  {
    hide Step;
    OpeningSeeds(l, rms);
    if levels != [] {
      var front := levels[..|levels| - 1];
      assert forall x :: x in front ==> x in levels;
      SeedStaysPut(l, rms, front);
      assert levels[|levels| - 1] in levels;
      SteadyStep(Frames(Step(l, rms), front), rms);
    }
  }

  /** Inside the hysteresis window the gate neither opens nor closes, and the gain does
      not move, however long the level stays there. */
  lemma {:induction false} NoChatterInsideTheWindow(l: Level, levels: seq<real>)
    requires GATE_CLOSE <= l.envelope <= GATE_OPEN
    requires forall x :: x in levels ==> GATE_CLOSE <= x <= GATE_OPEN
    ensures Frames(l, levels).open == l.open && Frames(l, levels).gain == l.gain
    ensures GATE_CLOSE <= Frames(l, levels).envelope <= GATE_OPEN
  {
    if levels != [] {
      var front := levels[..|levels| - 1];
      assert forall x :: x in front ==> x in levels;
      NoChatterInsideTheWindow(l, front);
      assert levels[|levels| - 1] in levels;
    }
  }

  // -- How fast it settles --------------------------------------------------

  /** The gain wanted is the one that puts the level at 2000, between a half and six. */
  lemma WantsTheTarget(envelope: real)
    ensures 1.0 <= envelope <= 2000.0 / 6.0 ==> Want(envelope) == 6.0
    ensures 2000.0 / 6.0 <= envelope <= 4000.0 ==> Want(envelope) * envelope == 2000.0
    ensures envelope >= 4000.0 ==> Want(envelope) == 0.5
  {
    if envelope >= 1.0 {
      Quotient(2000.0, envelope, 6.0);
      Quotient(2000.0, envelope, 0.5);
    }
  }

  /** A quotient is on the same side of a bound as the dividend of the bound's multiple. */
  lemma Quotient(t: real, e: real, bound: real)
    requires e > 0.0
    ensures e * (t / e) == t
    ensures t / e < bound <==> t < e * bound
    ensures t / e > bound <==> t > e * bound
  {
    Spread(t, e);
    var gap := bound - t / e;
    assert e * gap == e * bound - t;
    Sign(e, gap);
  }

  lemma Sign(e: real, gap: real)
    requires e > 0.0
    ensures (gap > 0.0 <==> e * gap > 0.0) && (gap < 0.0 <==> e * gap < 0.0)
  {
  }

  function Power(r: real, n: nat): real {
    if n == 0 then 1.0 else r * Power(r, n - 1)
  }

  lemma {:induction false} PowerInRange(r: real, n: nat)
    requires 0.0 <= r <= 1.0
    ensures 0.0 <= Power(r, n) <= 1.0
  {
    if n > 0 {
      PowerInRange(r, n - 1);
      NotNegative(r, Power(r, n - 1));
      NotNegative(1.0 - r, Power(r, n - 1));
      assert (1.0 - r) * Power(r, n - 1) == Power(r, n - 1) - Power(r, n);
    }
  }

  lemma Shrinks(r: real, n: nat, x: real)
    requires n > 0
    ensures Power(r, n) * x == r * (Power(r, n - 1) * x)
  {
  }

  /** The gate is open or shut throughout these frames. */
  ghost predicate GateStays(l: Level, levels: seq<real>, open: bool) {
    forall i :: 0 <= i <= |levels| ==> Frames(l, levels[..i]).open == open
  }

  lemma GateStaysBefore(l: Level, levels: seq<real>, open: bool)
    requires levels != [] && GateStays(l, levels, open)
    ensures GateStays(l, levels[..|levels| - 1], open)
    ensures Frames(l, levels).open == open
  {
    hide Frames;
    var front := levels[..|levels| - 1];
    forall i | 0 <= i <= |front| ensures Frames(l, front[..i]).open == open {
      assert front[..i] == levels[..i];
    }
    assert levels[..|levels|] == levels;
  }

  lemma StepGate(l: Level, rms: real)
    requires 0.0 <= l.gate <= 1.0
    ensures var l' := Step(l, rms);
            && 0.0 <= l'.gate <= 1.0
            && (l'.open ==> 1.0 - l'.gate == 0.65 * (1.0 - l.gate))
            && (!l'.open ==> l'.gate == 0.95 * l.gate)
  {
  }

  /** It opens by 35 hundredths of what is left each frame and closes by five. */
  lemma {:induction false} GateSettles(l: Level, levels: seq<real>, open: bool)
    requires GateStays(l, levels, open) && 0.0 <= l.gate <= 1.0
    ensures var gate := Frames(l, levels).gate;
            && 0.0 <= gate <= 1.0
            && (open ==> 1.0 - gate == Power(0.65, |levels|) * (1.0 - l.gate))
            && (!open ==> gate == Power(0.95, |levels|) * l.gate)
  {
    hide Step;
    hide GateStays;
    if levels != [] {
      var n := |levels|;
      GateStaysBefore(l, levels, open);
      GateSettles(l, levels[..n - 1], open);
      StepGate(Frames(l, levels[..n - 1]), levels[n - 1]);
      Shrinks(0.65, n, 1.0 - l.gate);
      Shrinks(0.95, n, l.gate);
    }
  }

  lemma StepEnvelope(l: Level, rms: real)
    requires Step(l, rms).open == l.open
    ensures var envelope := Step(l, rms).envelope;
            && (rms >= l.envelope ==> rms - envelope == 0.5 * (rms - l.envelope))
            && (rms <= l.envelope ==> envelope - rms == 0.95 * (l.envelope - rms))
  {
  }

  /** With the gate as it is, the envelope halves its distance to a louder steady level
      each frame, and keeps 95 hundredths of it to a quieter one. */
  lemma {:induction false} EnvelopeSettles(l: Level, rms: real, levels: seq<real>, open: bool)
    requires GateStays(l, levels, open) && Steady(levels, rms)
    ensures var envelope := Frames(l, levels).envelope;
            && (rms >= l.envelope ==> rms - envelope == Power(0.5, |levels|) * (rms - l.envelope))
            && (rms <= l.envelope ==> envelope - rms == Power(0.95, |levels|) * (l.envelope - rms))
  {
    hide Step;
    hide GateStays;
    if levels != [] {
      var n := |levels|;
      var front := levels[..n - 1];
      assert forall x :: x in front ==> x in levels;
      GateStaysBefore(l, levels, open);
      EnvelopeSettles(l, rms, front, open);
      assert levels[n - 1] in levels;
      var before := Frames(l, front);
      GateIsStill(l, front, open);
      StepEnvelope(before, rms);
      if rms >= l.envelope {
        PowerInRange(0.5, n - 1);
        NotNegative(Power(0.5, n - 1), rms - l.envelope);
        Shrinks(0.5, n, rms - l.envelope);
      }
      if rms <= l.envelope {
        PowerInRange(0.95, n - 1);
        NotNegative(Power(0.95, n - 1), l.envelope - rms);
        Shrinks(0.95, n, l.envelope - rms);
      }
    }
  }

  lemma GateIsStill(l: Level, levels: seq<real>, open: bool)
    requires GateStays(l, levels, open)
    ensures Frames(l, levels).open == open
  {
    hide Frames;
    assert levels[..|levels|] == levels;
  }

  lemma StepGain(l: Level, rms: real)
    requires l.open && l.envelope == rms && rms > 220.0
    ensures Step(l, rms).open && Step(l, rms).envelope == rms
    ensures Step(l, rms).gain - Want(rms) == 0.9 * (l.gain - Want(rms))
  {
    hide Want;
  }

  /** At a steady level over the threshold the gain closes in on the one wanted by a tenth
      of the distance each frame. */
  lemma {:induction false} GainSettles(l: Level, rms: real, levels: seq<real>)
    requires l.open && l.envelope == rms && rms > 220.0 && Steady(levels, rms)
    ensures Frames(l, levels).open && Frames(l, levels).envelope == rms
    ensures Frames(l, levels).gain - Want(rms) == Power(0.9, |levels|) * (l.gain - Want(rms))
  {
    hide Want;
    hide Step;
    if levels != [] {
      var front := levels[..|levels| - 1];
      assert forall x :: x in front ==> x in levels;
      GainSettles(l, rms, front);
      assert levels[|levels| - 1] in levels;
      StepGain(Frames(l, front), rms);
      Shrinks(0.9, |levels|, l.gain - Want(rms));
    }
  }

  /** A quiet gate opens exactly over 220 and an open one shuts exactly under 110. */
  lemma GateTurnsAt(l: Level, rms: real)
    ensures var envelope := l.envelope + (if rms > l.envelope then 0.5 else 0.05) * (rms - l.envelope);
            Step(l, rms).open <==> if l.open then envelope >= 110.0 else envelope > 220.0
  {
  }

  /** No sample leaves louder than 32000, and none is bent below that. */
  lemma LimitedAtTheTop(x: real, multiplier: real)
    ensures -32000.0 <= Amplified(x, multiplier) <= 32000.0
    ensures -32000.0 <= x * multiplier <= 32000.0 ==> Amplified(x, multiplier) == x * multiplier
    ensures x * multiplier > 32000.0 ==> Amplified(x, multiplier) == 32000.0
    ensures x * multiplier < -32000.0 ==> Amplified(x, multiplier) == -32000.0
  {
  }

  // -- The ramp -------------------------------------------------------------

  /** What sample `i` of an `n`-sample frame is multiplied by. */
  function Multiplier(before: real, after: real, n: nat, i: nat): real
    requires n > 0
  {
    before + (i + 1) as real * ((after - before) / n as real)
  }

  /** One sample amplified, and limited. */
  function Amplified(x: real, multiplier: real): real {
    Clamp(x * multiplier, -LIMIT, LIMIT)
  }

  /** The ramp never overshoots, and lands exactly where the next frame starts. */
  lemma RampStaysBetween(before: real, after: real, n: nat, i: nat)
    requires i < n
    ensures var m := Multiplier(before, after, n, i);
            (before <= after ==> before <= m <= after) && (after <= before ==> after <= m <= before)
    ensures Multiplier(before, after, n, n - 1) == after
  {
    var step := (after - before) / n as real;
    Spread(after - before, n as real);
    if before <= after {
      assert 0.0 <= step;
      Scaled(step, (i + 1) as real, n as real);
    } else {
      assert 0.0 <= -step;
      Scaled(-step, (i + 1) as real, n as real);
    }
  }

  lemma Spread(d: real, n: real)
    requires n > 0.0
    ensures n * (d / n) == d
    ensures (d >= 0.0 ==> d / n >= 0.0) && (d <= 0.0 ==> d / n <= 0.0)
  {
  }

  lemma Scaled(step: real, k: real, n: real)
    requires 0.0 <= step && 0.0 <= k <= n
    ensures 0.0 <= k * step <= n * step
  {
    assert (n - k) * step >= 0.0;
  }

  function SumSquares(frame: seq<real>): real {
    if frame == [] then 0.0
    else SumSquares(frame[..|frame| - 1]) + frame[|frame| - 1] * frame[|frame| - 1]
  }

  /** What the mean square is taken over: an empty frame counts as one sample. */
  function Count(n: nat): nat {
    if n > 1 then n else 1
  }

  ghost predicate IsRms(frame: seq<real>, rms: real) {
    rms >= 0.0 && rms * rms * Count(|frame|) as real == SumSquares(frame)
  }

  /** The reals have no root function to call; any that is one will do. */
  ghost predicate IsRoot(root: real -> real) {
    forall x :: x >= 0.0 ==> root(x) >= 0.0 && root(x) * root(x) == x
  }

  lemma {:induction false} SquaresAreNotNegative(frame: seq<real>)
    ensures SumSquares(frame) >= 0.0
  {
    if frame != [] {
      SquaresAreNotNegative(frame[..|frame| - 1]);
      var x := frame[|frame| - 1];
      var size := if x >= 0.0 then x else -x;
      NotNegative(size, size);
    }
  }

  lemma RootOfTheMean(frame: seq<real>, root: real -> real)
    requires IsRoot(root)
    ensures IsRms(frame, root(SumSquares(frame) / Count(|frame|) as real))
  {
    SquaresAreNotNegative(frame);
    var n := Count(|frame|) as real;
    Spread(SumSquares(frame), n);
    var mean := SumSquares(frame) / n;
    assert root(mean) * root(mean) == mean;
  }

  class Agc {
    var gain: real
    var envelope: real
    var gate: real
    var open: bool
    /** What the last sample of the previous frame was multiplied by. */
    var applied: real

    ghost function Abs(): Level
      reads this
    {
      Level(gain, envelope, gate, open, applied)
    }

    /** The square root. */
    const root: real -> real

    constructor (root: real -> real)
      ensures Abs() == START && this.root == root
    {
      this.root := root;
      gain, envelope, gate, open, applied := 1.0, 0.0, 0.0, false, 0.0;
    }

    method Rms(frame: array<real>) returns (rms: real)
      requires IsRoot(root)
      ensures IsRms(frame[..], rms)
    {
      var sum := 0.0;
      for i := 0 to frame.Length
        invariant sum == SumSquares(frame[..i])
      {
        assert frame[..i + 1][..i] == frame[..i];
        sum := sum + frame[i] * frame[i];
      }
      assert frame[..frame.Length] == frame[..];
      RootOfTheMean(frame[..], root);
      rms := root(sum / Count(frame.Length) as real);
    }

    method Run(frame: array<real>)
      requires IsRoot(root)
      modifies this, frame
      ensures exists rms :: IsRms(old(frame[..]), rms) && Abs() == Step(old(Abs()), rms)
      ensures forall i :: 0 <= i < frame.Length ==>
        frame[i] == Amplified(old(frame[i]), Multiplier(old(applied), applied, frame.Length, i))
    {
      hide IsRms;
      hide IsRoot;
      hide Multiplier;
      hide Amplified;
      hide Step;
      var rms := Rms(frame);
      Follow(frame, rms);
    }

    method Follow(frame: array<real>, rms: real)
      modifies this, frame
      ensures Abs() == Step(old(Abs()), rms)
      ensures forall i :: 0 <= i < frame.Length ==>
        frame[i] == Amplified(old(frame[i]), Multiplier(old(applied), applied, frame.Length, i))
    {
      hide Multiplier;
      hide Amplified;
      hide Want;
      var wasOpen := open;
      var a := if rms > envelope then 0.5 else 0.05;
      envelope := envelope + a * (rms - envelope);
      if open {
        if envelope < GATE_CLOSE {
          open := false;
        }
      } else if envelope > GATE_OPEN {
        open := true;
      }
      var wantGate := if open then 1.0 else 0.0;
      var g := if wantGate > gate then 0.35 else 0.05;
      gate := gate + g * (wantGate - gate);
      if open && !wasOpen {
        envelope := rms;
        gain := Want(envelope);
      } else if envelope > GATE_OPEN {
        gain := gain + CHASE * (Want(envelope) - gain);
      }
      var end := gain * gate;
      Ramp(frame, end);
      applied := end;
    }

    method Ramp(frame: array<real>, end: real)
      modifies frame
      ensures forall i :: 0 <= i < frame.Length ==>
        frame[i] == Amplified(old(frame[i]), Multiplier(applied, end, frame.Length, i))
    {
      var n := frame.Length;
      if n == 0 {
        return;
      }
      hide Amplified;
      hide Multiplier;
      var step := (end - applied) / n as real;
      var g := applied;
      for i := 0 to n
        invariant g == if i == 0 then applied else Multiplier(applied, end, n, i - 1)
        invariant forall k :: 0 <= k < i ==>
          frame[k] == Amplified(old(frame[k]), Multiplier(applied, end, n, k))
        invariant forall k :: i <= k < n ==> frame[k] == old(frame[k])
      {
        NextRung(applied, end, n, i);
        g := g + step;
        frame[i] := Amplified(frame[i], g);
      }
    }
  }

  lemma NextRung(before: real, after: real, n: nat, i: nat)
    requires n > 0
    ensures Multiplier(before, after, n, i) ==
            (if i == 0 then before else Multiplier(before, after, n, i - 1)) + (after - before) / n as real
  {
    var step := (after - before) / n as real;
    OneMore(step, i);
  }

  lemma OneMore(step: real, i: nat)
    ensures (i + 1) as real * step == i as real * step + step
  {
  }
}
