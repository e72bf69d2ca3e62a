/** The network primitives a prediction calls: `Normalise`, `Layer`, `ELU` and
    `Renormalise`. They belong to a base class this model does not include, so
    their numbers are left open: each is given by a kernel function that supplies
    the entries of its result. What the model does fix is the shape of each
    result and the tensor it is written into: `Layer(x, W, b, y)` writes a
    `W.rows x x.cols` result into y, and the other three keep the shape of their
    input. ELU is the exponential linear unit, with `exp` left open. */
module Network {
  import opened Tensors

  datatype Kernels = Kernels(
    normalise: (Tensor, Tensor, Tensor, nat) -> real,
    layer: (Tensor, Tensor, Tensor, nat) -> real,
    exp: real -> real,
    renormalise: (Tensor, Tensor, Tensor, nat) -> real)

  /** `Normalise(x, mean, std, y)`: y overwritten with the normalised input. */
  function Normalise(k: Kernels, x: Tensor, mean: Tensor, std: Tensor, y: Tensor): (u: Tensor)
    ensures u.HasShape(x.rows, x.cols) && u.id == y.id
  {
    Tensor(y.id, x.rows, x.cols, seq(x.rows * x.cols, j requires 0 <= j => k.normalise(x, mean, std, j)))
  }

  /** `Layer(x, W, b, y)`: y overwritten with `W x + b`. */
  function Layer(k: Kernels, x: Tensor, w: Tensor, b: Tensor, y: Tensor): (u: Tensor)
    ensures u.HasShape(w.rows, x.cols) && u.id == y.id
  {
    Tensor(y.id, w.rows, x.cols, seq(w.rows * x.cols, j requires 0 <= j => k.layer(x, w, b, j)))
  }

  /** The exponential linear unit of one value. */
  function Elu(k: Kernels, v: real): real {
    if v > 0.0 then v else k.exp(v) - 1.0
  }

  /** `ELU(x)`: the unit applied to every element of x in place. */
  function ELU(k: Kernels, x: Tensor): (u: Tensor)
    requires x.WellFormed()
    ensures u.HasShape(x.rows, x.cols) && u.id == x.id
  {
    x.(values := seq(|x.values|, j requires 0 <= j < |x.values| => Elu(k, x.values[j])))
  }

  /** `Renormalise(x, mean, std, y)`: y overwritten with the de-normalised output. */
  function Renormalise(k: Kernels, x: Tensor, mean: Tensor, std: Tensor, y: Tensor): (u: Tensor)
    ensures u.HasShape(x.rows, x.cols) && u.id == y.id
  {
    Tensor(y.id, x.rows, x.cols, seq(x.rows * x.cols, j requires 0 <= j => k.renormalise(x, mean, std, j)))
  }

  /** ELU acts cell by cell and leaves positive entries as they are. */
  lemma EluCells(k: Kernels, x: Tensor, r: nat, c: nat)
    requires x.WellFormed() && r < x.rows && c < x.cols
    ensures Get(ELU(k, x), r, c) == Elu(k, Get(x, r, c))
    ensures Get(x, r, c) > 0.0 ==> Get(ELU(k, x), r, c) == Get(x, r, c)
  {
    OffsetInBounds(x.rows, x.cols, r, c);
  }
}
