/**
 * 48 kHz to 8 kHz: a windowed low-pass over a shifting history, one sample out for
 * every six in, and the batch convolution it amounts to.
 */
module Decimation {
  import opened AmMixing

  const TAPS: nat := 48
  const FACTOR: nat := 6

  // -- What it computes -----------------------------------------------------

  function Dot(h: seq<real>, t: seq<real>): real
    requires |h| == |t|
  {
    if h == [] then 0.0 else Dot(h[..|h| - 1], t[..|t| - 1]) + h[|h| - 1] * t[|t| - 1]
  }

  /** Sample `i` of the stream; silence before it started. */
  function HeardAt(input: seq<Sample>, i: int): real {
    if 0 <= i < |input| then input[i] as real else 0.0
  }

  /** The last `TAPS` samples before position `n`. */
  function Window(input: seq<Sample>, n: nat): (w: seq<real>)
    ensures |w| == TAPS
  {
    seq(TAPS, i => HeardAt(input, n - TAPS + i))
  }

  /** Clamped, then truncated toward zero. */
  function ToSample(acc: real): Sample {
    if acc <= -32768.0 then -32768
    else if acc >= 32767.0 then 32767
    else if acc >= 0.0 then acc.Floor
    else -((-acc).Floor)
  }

  /** Output `j` looks at the window ending at input `6j + 5`. */
  function OutputAt(taps: seq<real>, input: seq<Sample>, j: nat): Sample
    requires |taps| == TAPS
  {
    ToSample(Dot(Window(input, FACTOR * j + FACTOR), taps))
  }

  function Batch(taps: seq<real>, input: seq<Sample>): (out: seq<Sample>)
    requires |taps| == TAPS
    ensures |out| == |input| / FACTOR
  {
    seq(|input| / FACTOR, j requires 0 <= j => OutputAt(taps, input, j))
  }

  // -- Why chunks do not matter ---------------------------------------------

  lemma WindowIgnoresTheFuture(a: seq<Sample>, b: seq<Sample>, n: nat)
    requires n <= |a|
    ensures Window(a + b, n) == Window(a, n)
  {
    forall i | 0 <= i < TAPS ensures Window(a + b, n)[i] == Window(a, n)[i] {
      assert HeardAt(a + b, n - TAPS + i) == HeardAt(a, n - TAPS + i);
    }
  }

  lemma BatchExtends(taps: seq<real>, a: seq<Sample>, b: seq<Sample>)
    requires |taps| == TAPS
    ensures Batch(taps, a) <= Batch(taps, a + b)
  {
    forall j: nat | j < |a| / FACTOR ensures Batch(taps, a)[j] == Batch(taps, a + b)[j] {
      WindowIgnoresTheFuture(a, b, FACTOR * j + FACTOR);
    }
  }

  /** What pushing `b` after `a` emits. */
  function Emitted(taps: seq<real>, a: seq<Sample>, b: seq<Sample>): seq<Sample>
    requires |taps| == TAPS
  {
    Batch(taps, a + b)[|a| / FACTOR..]
  }

  function Concat(chunks: seq<seq<Sample>>): seq<Sample> {
    if chunks == [] then [] else Concat(chunks[..|chunks| - 1]) + chunks[|chunks| - 1]
  }

  /** Everything emitted over a stream pushed in these chunks. */
  function Streamed(taps: seq<real>, chunks: seq<seq<Sample>>): seq<Sample>
    requires |taps| == TAPS
  {
    if chunks == [] then []
    else
      var front := chunks[..|chunks| - 1];
      Streamed(taps, front) + Emitted(taps, Concat(front), chunks[|chunks| - 1])
  }

  /** However the stream is cut, the output is the batch convolution of the whole. */
  lemma {:induction false} AnyChunkingIsTheBatch(taps: seq<real>, chunks: seq<seq<Sample>>)
    requires |taps| == TAPS
    ensures Streamed(taps, chunks) == Batch(taps, Concat(chunks))
  {
    hide OutputAt;
    if chunks != [] {
      var front, last := chunks[..|chunks| - 1], chunks[|chunks| - 1];
      AnyChunkingIsTheBatch(taps, front);
      BatchExtends(taps, Concat(front), last);
    }
  }

  // -- What the filter does -------------------------------------------------

  /** A sample out is the sum to within one, toward silence, or the end of the range it passed. */
  lemma SampleIsTheSum(acc: real)
    ensures -32768.0 <= acc <= 32767.0 ==>
      && -1.0 < ToSample(acc) as real - acc < 1.0
      && (acc >= 0.0 ==> 0.0 <= ToSample(acc) as real <= acc) && (acc <= 0.0 ==> acc <= ToSample(acc) as real <= 0.0)
    ensures acc > 32767.0 ==> ToSample(acc) == 32767
    ensures acc < -32768.0 ==> ToSample(acc) == -32768
  {
  }

  /** The filter adds up: two signals at once give the sum of what each alone gives. */
  lemma {:induction false} DotAdds(a: seq<real>, b: seq<real>, sum: seq<real>, taps: seq<real>)
    requires |a| == |b| == |sum| == |taps| && forall i :: 0 <= i < |sum| ==> sum[i] == a[i] + b[i]
    ensures Dot(sum, taps) == Dot(a, taps) + Dot(b, taps)
  {
    if sum != [] {
      var n := |sum| - 1;
      DotAdds(a[..n], b[..n], sum[..n], taps[..n]);
      assert (a[n] + b[n]) * taps[n] == a[n] * taps[n] + b[n] * taps[n];
    }
  }

  lemma {:induction false} DotOfOne(w: seq<real>, taps: seq<real>, p: int, x: real)
    requires |w| == |taps| && forall i :: 0 <= i < |w| ==> w[i] == if i == p then x else 0.0
    ensures Dot(w, taps) == if 0 <= p < |w| then x * taps[p] else 0.0
  {
    if w != [] {
      DotOfOne(w[..|w| - 1], taps[..|w| - 1], p, x);
    }
  }

  /** A single sample at position `p` comes out once for every sixth tap, in turn from the
      last, at each of the outputs `j` whose 48 samples up to `6j + 5` take it in. */
  lemma ImpulseGivesTheTaps(taps: seq<real>, input: seq<Sample>, p: nat, j: nat)
    requires |taps| == 48 && p < |input| && forall i :: 0 <= i < |input| && i != p ==> input[i] == 0
    requires j < |Batch(taps, input)|
    ensures Batch(taps, input)[j] ==
            if p <= 6 * j + 5 < p + 48 then ToSample(input[p] as real * taps[47 - (6 * j + 5 - p)]) else 0
  {
    hide Batch;
    hide Dot;
    var n := FACTOR * j + FACTOR;
    var w := Window(input, n);
    forall i | 0 <= i < TAPS ensures w[i] == if i == p - n + TAPS then input[p] as real else 0.0 {
      assert w[i] == HeardAt(input, n - TAPS + i);
    }
    DotOfOne(w, taps, p - n + TAPS, input[p] as real);
    BatchAt(taps, input, j);
    assert p - n + TAPS == 47 - (6 * j + 5 - p);
  }

  lemma WindowSlides(input: seq<Sample>, s: Sample)
    ensures Window(input + [s], |input| + 1) == Window(input, |input|)[1..] + [s as real]
  {
    var grown := Window(input + [s], |input| + 1);
    forall i | 0 <= i < TAPS - 1 ensures grown[i] == Window(input, |input|)[i + 1] {
      assert HeardAt(input + [s], |input| + 1 - TAPS + i) == HeardAt(input, |input| - TAPS + (i + 1));
    }
    assert HeardAt(input + [s], |input|) == s as real;
  }

  lemma BatchAt(taps: seq<real>, input: seq<Sample>, j: nat)
    requires |taps| == TAPS && j < |input| / FACTOR
    ensures Batch(taps, input)[j] == ToSample(Dot(Window(input, FACTOR * j + FACTOR), taps))
  {
  }

  lemma BatchOneMore(taps: seq<real>, input: seq<Sample>, s: Sample)
    requires |taps| == TAPS
    ensures var grown := input + [s];
            Batch(taps, grown) ==
              if |grown| % FACTOR == 0 then Batch(taps, input) + [ToSample(Dot(Window(grown, |grown|), taps))]
              else Batch(taps, input)
  {
    hide Window;
    hide Dot;
    hide ToSample;
    hide Batch;
    var grown := input + [s];
    var before, after := Batch(taps, input), Batch(taps, grown);
    BatchExtends(taps, input, [s]);
    NextOutput(|input|);
    if |grown| % FACTOR == 0 {
      BatchAt(taps, grown, |before|);
      assert after == after[..|before|] + [after[|before|]];
    }
  }

  lemma NextOutput(n: nat)
    ensures (n + 1) % FACTOR == 0 ==> (n + 1) / FACTOR == n / FACTOR + 1 && FACTOR * (n / FACTOR) + FACTOR == n + 1
    ensures (n + 1) % FACTOR != 0 ==> (n + 1) / FACTOR == n / FACTOR
  {
  }

  class Decimator {
    const taps: seq<real>
    const history: array<real>
    var phase: nat
    /** Everything pushed so far. */
    ghost var fed: seq<Sample>

    ghost predicate Valid()
      reads this, history
    {
      && |taps| == TAPS && history.Length == TAPS
      && history[..] == Window(fed, |fed|)
      && phase == |fed| % FACTOR
    }

    constructor (taps: seq<real>)
      requires |taps| == TAPS
      ensures Valid() && fresh(history) && fed == [] && this.taps == taps
    {
      this.taps := taps;
      history := new real[TAPS](_ => 0.0);
      phase, fed := 0, [];
      new;
      forall i | 0 <= i < TAPS ensures history[i] == Window(fed, 0)[i] {
        assert HeardAt([], 0 - TAPS + i) == 0.0;
      }
    }

    /** The oldest sample out, the newest in. */
    method Shift(s: Sample)
      requires history.Length == TAPS
      modifies history
      ensures history[..] == old(history[..])[1..] + [s as real]
    {
      for i := 0 to TAPS - 1
        invariant forall k :: 0 <= k < i ==> history[k] == old(history[k + 1])
        invariant forall k :: i <= k < TAPS ==> history[k] == old(history[k])
      {
        history[i] := history[i + 1];
      }
      history[TAPS - 1] := s as real;
    }

    method Accumulate() returns (acc: real)
      requires history.Length == TAPS && |taps| == TAPS
      ensures acc == Dot(history[..], taps)
    {
      acc := 0.0;
      for i := 0 to TAPS
        invariant acc == Dot(history[..i], taps[..i])
      {
        assert history[..i + 1][..i] == history[..i] && taps[..i + 1][..i] == taps[..i];
        acc := acc + history[i] * taps[i];
      }
      assert history[..TAPS] == history[..] && taps[..TAPS] == taps;
    }

    /** One output for each sixth sample of the input, counted over all pushes. */
    method Push(input: seq<Sample>) returns (out: seq<Sample>)
      requires Valid()
      modifies this, history
      ensures Valid() && fed == old(fed) + input
      ensures out == Emitted(taps, old(fed), input)
    {
      hide Batch;
      hide Window;
      out := [];
      BatchExtends(taps, fed, []);
      assert fed + [] == fed;
      for i := 0 to |input|
        invariant Valid() && fed == old(fed) + input[..i]
        invariant Batch(taps, fed) == Batch(taps, old(fed)) + out
      {
        assert input[..i + 1] == input[..i] + [input[i]];
        BatchOneMore(taps, fed, input[i]);
        WindowSlides(fed, input[i]);
        Shift(input[i]);
        fed := fed + [input[i]];
        phase := phase + 1;
        if phase == FACTOR {
          phase := 0;
          var acc := Accumulate();
          out := out + [ToSample(acc)];
        }
      }
      assert input[..|input|] == input;
    }
  }
}
