/** The style layer of a prediction: the style weight sets blended by the style
    scalars, `WS = S[0]*SW[0] + ... + S[n-1]*SW[n-1]` (and likewise `bS` from `Sb`),
    accumulated one `Blend` at a time into a zeroed tensor. */
module StyleLayer {
  import opened Tensors

  /** The first n tensors of ms are well-formed `rows x cols` buffers. */
  predicate Shaped(ms: seq<Tensor>, n: nat, rows: nat, cols: nat) {
    n <= |ms| && forall i :: 0 <= i < n ==> ms[i].HasShape(rows, cols)
  }

  /** acc after `Blend(acc, ms[i], ss[i])` for i = 0, 1, ..., n-1 in turn. */
  function Accumulate(acc: Tensor, ms: seq<Tensor>, ss: seq<real>, n: nat): (u: Tensor)
    requires acc.WellFormed() && Shaped(ms, n, acc.rows, acc.cols) && n <= |ss|
    ensures u.HasShape(acc.rows, acc.cols) && u.id == acc.id
  {
    if n == 0 then acc else Blend(Accumulate(acc, ms, ss, n - 1), ms[n - 1], ss[n - 1])
  }

  /** The weighted sum `ss[0]*ms[0][r,c] + ... + ss[n-1]*ms[n-1][r,c]` of one cell. */
  function WeightedSum(ms: seq<Tensor>, ss: seq<real>, n: nat, rows: nat, cols: nat, r: nat, c: nat): real
    requires Shaped(ms, n, rows, cols) && n <= |ss| && r < rows && c < cols
  {
    if n == 0 then 0.0
    else WeightedSum(ms, ss, n - 1, rows, cols, r, c) + ss[n - 1] * Get(ms[n - 1], r, c)
  }

  /** Each cell of the accumulated tensor is its start value plus the weighted sum
      of that cell over the style sets. */
  lemma {:induction false} AccumulateCell(acc: Tensor, ms: seq<Tensor>, ss: seq<real>, n: nat, r: nat, c: nat)
    requires acc.WellFormed() && Shaped(ms, n, acc.rows, acc.cols) && n <= |ss|
    requires r < acc.rows && c < acc.cols
    ensures Get(Accumulate(acc, ms, ss, n), r, c) ==
              Get(acc, r, c) + WeightedSum(ms, ss, n, acc.rows, acc.cols, r, c)
  {
    if n > 0 {
      AccumulateCell(acc, ms, ss, n - 1, r, c);
    }
  }

  /** Accumulated from zero, each cell is exactly the weighted sum: nothing of the
      tensor's previous contents survives. */
  lemma BlendFromZero(acc: Tensor, ms: seq<Tensor>, ss: seq<real>, n: nat, r: nat, c: nat)
    requires acc.WellFormed() && Shaped(ms, n, acc.rows, acc.cols) && n <= |ss|
    requires r < acc.rows && c < acc.cols
    ensures Get(Accumulate(Zeroed(acc), ms, ss, n), r, c) ==
              WeightedSum(ms, ss, n, acc.rows, acc.cols, r, c)
  {
    AccumulateCell(Zeroed(acc), ms, ss, n, r, c);
  }

  /** One style set with scalar 1 reproduces that set exactly. */
  lemma BlendSingleUnit(acc: Tensor, ms: seq<Tensor>, ss: seq<real>)
    requires acc.WellFormed() && Shaped(ms, 1, acc.rows, acc.cols) && 1 <= |ss| && ss[0] == 1.0
    ensures Accumulate(Zeroed(acc), ms, ss, 1).values == ms[0].values
  {
    var u := Accumulate(Zeroed(acc), ms, ss, 1);
    forall r: nat, c: nat | r < acc.rows && c < acc.cols ensures Get(u, r, c) == Get(ms[0], r, c) {
      BlendFromZero(acc, ms, ss, 1, r, c);
    }
    CellsDetermineValues(u, ms[0]);
  }

  /** All style scalars zero give the zero tensor. */
  lemma BlendAllZero(acc: Tensor, ms: seq<Tensor>, ss: seq<real>, n: nat)
    requires acc.WellFormed() && Shaped(ms, n, acc.rows, acc.cols) && n <= |ss|
    requires forall i :: 0 <= i < n ==> ss[i] == 0.0
    ensures Accumulate(Zeroed(acc), ms, ss, n) == Zeroed(acc)
  {
    var u, z := Accumulate(Zeroed(acc), ms, ss, n), Zeroed(acc);
    forall r: nat, c: nat | r < acc.rows && c < acc.cols ensures Get(u, r, c) == Get(z, r, c) {
      BlendFromZero(acc, ms, ss, n, r, c);
      WeightedSumZero(ms, ss, n, acc.rows, acc.cols, r, c);
    }
    CellsDetermineValues(u, z);
  }

  lemma {:induction false} WeightedSumZero(ms: seq<Tensor>, ss: seq<real>, n: nat, rows: nat, cols: nat, r: nat, c: nat)
    requires Shaped(ms, n, rows, cols) && n <= |ss| && r < rows && c < cols
    requires forall i :: 0 <= i < n ==> ss[i] == 0.0
    ensures WeightedSum(ms, ss, n, rows, cols, r, c) == 0.0
  {
    if n > 0 {
      WeightedSumZero(ms, ss, n - 1, rows, cols, r, c);
    }
  }
}
