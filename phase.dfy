/** The engine's phase: the constant pi, the bucket a phase selects, Unity's
    `Mathf.Repeat` wrap-around, and the phase update done at the end of every
    prediction. All numbers are reals; single-precision rounding is not modelled. */
module PhaseCycle {
  import Layout

  /** pi, as the engine's `M_PI` literal writes it. `Mathf.PI` is taken to be the
      same number. */
  const PI: real := 3.14159265358979323846

  /** One full phase cycle. */
  const TWO_PI: real := 2.0 * PI

  /** C#'s `(int)` conversion of a number: truncation toward zero. */
  function Truncate(x: real): int {
    if x >= 0.0 then x.Floor else -((-x).Floor)
  }

  /** `(int)((Phase / (2 * pi)) * 50)`: the phase bucket whose weights a
      prediction uses. */
  function BucketIndex(phase: real): int {
    Truncate((phase / TWO_PI) * (Layout.BUCKETS as real))
  }

  /** A phase inside one cycle selects one of the fifty buckets. */
  lemma BucketIndexInRange(phase: real)
    requires 0.0 <= phase < TWO_PI
    ensures 0 <= BucketIndex(phase) < Layout.BUCKETS
  {
    var x := (phase / TWO_PI) * 50.0;
    assert 0.0 <= x < 50.0;
  }

  /** Selection is the hard nearest-lower lookup: a non-negative phase selects
      bucket k exactly when it lies in the k-th fiftieth of the cycle. */
  lemma BucketIndexSelects(phase: real, k: int)
    requires 0.0 <= phase
    ensures BucketIndex(phase) == k <==>
              (k as real) * TWO_PI / 50.0 <= phase < ((k + 1) as real) * TWO_PI / 50.0
  {
    var x := (phase / TWO_PI) * 50.0;
    assert BucketIndex(phase) == x.Floor;
    assert (k as real) <= x <==> (k as real) * TWO_PI / 50.0 <= phase;
    assert x < ((k + 1) as real) <==> phase < ((k + 1) as real) * TWO_PI / 50.0;
  }

  /** `Mathf.Repeat(t, length)`: t wrapped into [0, length), taken as an exact
      modulo over the reals (its final clamp never applies there). */
  function Repeat(t: real, length: real): real
    requires length > 0.0
  {
    t - ((t / length).Floor as real) * length
  }

  /** The wrapped value always lies in [0, length), whatever the sign of t. */
  lemma RepeatInRange(t: real, length: real)
    requires length > 0.0
    ensures 0.0 <= Repeat(t, length) < length
  {
    var q := t / length;
    var d := q - (q.Floor as real);
    assert 0.0 <= d < 1.0;
    assert 0.0 <= d * length < length by {
      MulLeReal(0.0, d, length);
      MulLtReal(d, 1.0, length);
    }
    assert Repeat(t, length) == d * length by {
      assert q * length == t;
    }
  }

  lemma MulLeReal(a: real, b: real, c: real)
    requires a <= b && c > 0.0
    ensures a * c <= b * c
  {
    assert b * c - a * c == (b - a) * c;
  }

  lemma MulLtReal(a: real, b: real, c: real)
    requires a < b && c > 0.0
    ensures a * c < b * c
  {
    assert b * c - a * c == (b - a) * c;
  }

  /** A value already inside [0, length) is left as it is. */
  lemma RepeatIdentity(t: real, length: real)
    requires length > 0.0 && 0.0 <= t < length
    ensures Repeat(t, length) == t
  {
    DivInUnit(t, length);
    assert (t / length).Floor == 0;
  }

  lemma DivInUnit(t: real, length: real)
    requires length > 0.0 && 0.0 <= t < length
    ensures 0.0 <= t / length < 1.0
  {
    var q := t / length;
    assert q * length == t;
    if q < 0.0 {
      MulLtReal(q, 0.0, length);
    } else if q >= 1.0 {
      MulLeReal(1.0, q, length);
    }
  }

  /** Whole cycles added to t do not change where it wraps to. */
  lemma RepeatPeriodic(t: real, length: real, n: int)
    requires length > 0.0
    ensures Repeat(t + (n as real) * length, length) == Repeat(t, length)
  {
    var q := t / length;
    var q' := (t + (n as real) * length) / length;
    assert q' * length == t + (n as real) * length && q * length == t;
    assert (q' - q - (n as real)) * length == 0.0;
    assert q' == q + (n as real);
    assert q'.Floor == q.Floor + n;
  }

  /** The phase after one prediction: advanced by `(1 - damping) * output * 2pi`
      and wrapped into one cycle. */
  function Advance(phase: real, damping: real, output: real): real {
    Repeat(phase + (1.0 - damping) * output * 2.0 * PI, 2.0 * PI)
  }

  /** The updated phase always lies in [0, 2pi). */
  lemma AdvanceInRange(phase: real, damping: real, output: real)
    ensures 0.0 <= Advance(phase, damping, output) < TWO_PI
  {
    RepeatInRange(phase + (1.0 - damping) * output * 2.0 * PI, 2.0 * PI);
  }

  /** With damping 1 the phase does not move, whatever the network outputs. */
  lemma AdvanceFullDamping(phase: real, output: real)
    requires 0.0 <= phase < TWO_PI
    ensures Advance(phase, 1.0, output) == phase
  {
    assert phase + (1.0 - 1.0) * output * 2.0 * PI == phase;
    RepeatIdentity(phase, 2.0 * PI);
  }

  /** With damping 0 the phase moves on by `output * 2pi`, modulo one cycle. */
  lemma AdvanceUndamped(phase: real, output: real, n: int)
    requires 0.0 <= phase + output * TWO_PI - (n as real) * TWO_PI < TWO_PI
    ensures Advance(phase, 0.0, output) == phase + output * TWO_PI - (n as real) * TWO_PI
  {
    var t := phase + output * TWO_PI;
    assert phase + (1.0 - 0.0) * output * 2.0 * PI == t;
    RepeatPeriodic(t - (n as real) * TWO_PI, TWO_PI, n);
    assert t - (n as real) * TWO_PI + (n as real) * TWO_PI == t;
    RepeatIdentity(t - (n as real) * TWO_PI, TWO_PI);
  }

  /** The phase after a run of predictions whose phase outputs were `outputs`. */
  function PhaseAfter(phase: real, damping: real, outputs: seq<real>): real
    decreases |outputs|
  {
    if outputs == [] then phase
    else PhaseAfter(Advance(phase, damping, outputs[0]), damping, outputs[1..])
  }

  /** However many ticks run, the phase stays inside one cycle. */
  lemma {:induction false} PhaseAfterInRange(phase: real, damping: real, outputs: seq<real>)
    requires 0.0 <= phase < TWO_PI
    ensures 0.0 <= PhaseAfter(phase, damping, outputs) < TWO_PI
    decreases |outputs|
  {
    if outputs != [] {
      AdvanceInRange(phase, damping, outputs[0]);
      PhaseAfterInRange(Advance(phase, damping, outputs[0]), damping, outputs[1..]);
    }
  }

  /** With damping 1 the phase never changes across ticks. */
  lemma {:induction false} PhaseAfterFullDamping(phase: real, outputs: seq<real>)
    requires 0.0 <= phase < TWO_PI
    ensures PhaseAfter(phase, 1.0, outputs) == phase
    decreases |outputs|
  {
    if outputs != [] {
      AdvanceFullDamping(phase, outputs[0]);
      PhaseAfterFullDamping(phase, outputs[1..]);
    }
  }
}
