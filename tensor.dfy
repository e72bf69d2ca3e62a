/** Dense two-dimensional buffers of reals. A tensor has a fixed shape `rows x cols`
    and keeps its values row-major: the n-th value is cell (n / cols, n % cols). */
module Tensors {

  datatype Tensor = Tensor(id: string, rows: nat, cols: nat, values: seq<real>)
  {
    /** The buffer holds exactly one value per cell. */
    predicate WellFormed() {
      |values| == rows * cols
    }

    /** The tensor is a well-formed `r x c` buffer. */
    predicate HasShape(r: nat, c: nat) {
      rows == r && cols == c && |values| == r * c
    }
  }

  /** Flat position of cell (r, c) in a buffer with `cols` columns. */
  function Offset(cols: nat, r: nat, c: nat): nat {
    r * cols + c
  }

  lemma OffsetInBounds(rows: nat, cols: nat, r: nat, c: nat)
    requires r < rows && c < cols
    ensures Offset(cols, r, c) < rows * cols
  {
    calc {
      Offset(cols, r, c);
    <  (r + 1) * cols;
    <= { assert r + 1 <= rows; }
       rows * cols;
    }
  }

  /** Cell (r, c) is stored at the flat position n with n / cols == r and n % cols == c. */
  lemma OffsetRoundTrip(cols: nat, r: nat, c: nat)
    requires c < cols
    ensures Offset(cols, r, c) / cols == r && Offset(cols, r, c) % cols == c
  {
    var n := Offset(cols, r, c);
    assert n == r * cols + c;
    assert (r * cols + c) / cols == r && (r * cols + c) % cols == c by {
      DivModUnique(r * cols + c, cols, r, c);
    }
  }

  lemma DivModUnique(n: int, d: int, q: int, m: int)
    requires d > 0 && 0 <= m < d && n == q * d + m
    ensures n / d == q && n % d == m
  {
    var q', m' := n / d, n % d;
    assert n == q' * d + m' && 0 <= m' < d;
    assert (q' + 1) * d == q' * d + d && (q + 1) * d == q * d + d;
    MulMonotone(q' + 1, q, d);
    MulMonotone(q + 1, q', d);
  }

  lemma MulMonotone(a: int, b: int, d: nat)
    ensures a <= b ==> a * d <= b * d
  {
    assert b * d - a * d == (b - a) * d;
  }

  /** Two cells in range share a flat position only if they are the same cell. */
  lemma OffsetInjective(cols: nat, r: nat, c: nat, r': nat, c': nat)
    requires c < cols && c' < cols
    requires Offset(cols, r, c) == Offset(cols, r', c')
    ensures r == r' && c == c'
  {
    OffsetRoundTrip(cols, r, c);
    OffsetRoundTrip(cols, r', c');
  }

  /** A new `rows x cols` tensor with every element initialised to zero. */
  function Create(rows: nat, cols: nat, id: string): (t: Tensor)
    ensures t.HasShape(rows, cols) && t.id == id
    ensures forall r: nat, c: nat :: r < rows && c < cols ==> Get(t, r, c) == 0.0
  {
    var t := Tensor(id, rows, cols, seq(rows * cols, _ => 0.0));
    forall r: nat, c: nat | r < rows && c < cols ensures Get(t, r, c) == 0.0 {
      OffsetInBounds(rows, cols, r, c);
    }
    t
  }

  /** The value of cell (r, c): the buffer's value at the row-major position
      r * cols + c. */
  function Get(t: Tensor, r: nat, c: nat): (v: real)
    requires t.WellFormed() && r < t.rows && c < t.cols
    ensures r * t.cols + c < |t.values| && v == t.values[r * t.cols + c]
  {
    OffsetInBounds(t.rows, t.cols, r, c);
    t.values[Offset(t.cols, r, c)]
  }

  /** The tensor with cell (r, c) overwritten by v: that cell reads back as v and
      every other cell keeps its value. */
  function Set(t: Tensor, r: nat, c: nat, v: real): (u: Tensor)
    requires t.WellFormed() && r < t.rows && c < t.cols
    ensures u.HasShape(t.rows, t.cols) && u.id == t.id
    ensures Get(u, r, c) == v
    ensures forall r': nat, c': nat :: r' < t.rows && c' < t.cols && (r' != r || c' != c) ==>
              Get(u, r', c') == Get(t, r', c')
  {
    OffsetInBounds(t.rows, t.cols, r, c);
    var u := t.(values := t.values[Offset(t.cols, r, c) := v]);
    forall r': nat, c': nat | r' < t.rows && c' < t.cols && (r' != r || c' != c)
      ensures Get(u, r', c') == Get(t, r', c')
    {
      OffsetInBounds(t.rows, t.cols, r', c');
      var k, k' := Offset(t.cols, r, c), Offset(t.cols, r', c');
      if k == k' {
        OffsetInjective(t.cols, r', c', r, c);
        assert false;
      }
      assert u.values[k'] == t.values[k'];
    }
    u
  }

  /** The tensor with every element set to zero, shape and identity kept. */
  function Zeroed(t: Tensor): (u: Tensor)
    requires t.WellFormed()
    ensures u.HasShape(t.rows, t.cols) && u.id == t.id
    ensures forall r: nat, c: nat :: r < t.rows && c < t.cols ==> Get(u, r, c) == 0.0
  {
    var u := t.(values := seq(|t.values|, _ => 0.0));
    forall r: nat, c: nat | r < t.rows && c < t.cols ensures Get(u, r, c) == 0.0 {
      OffsetInBounds(t.rows, t.cols, r, c);
    }
    u
  }

  /** Scaled accumulate `acc += s * m` over tensors of the same shape. */
  function Blend(acc: Tensor, m: Tensor, s: real): (u: Tensor)
    requires acc.WellFormed() && m.HasShape(acc.rows, acc.cols)
    ensures u.HasShape(acc.rows, acc.cols) && u.id == acc.id
    ensures forall r: nat, c: nat :: r < acc.rows && c < acc.cols ==>
              Get(u, r, c) == Get(acc, r, c) + s * Get(m, r, c)
  {
    var u := acc.(values := seq(|acc.values|, j requires 0 <= j < |acc.values| => acc.values[j] + s * m.values[j]));
    forall r: nat, c: nat | r < acc.rows && c < acc.cols
      ensures Get(u, r, c) == Get(acc, r, c) + s * Get(m, r, c)
    {
      OffsetInBounds(acc.rows, acc.cols, r, c);
    }
    u
  }

  /** Every flat position below rows * cols is the position of one cell. */
  lemma CellOf(rows: nat, cols: nat, j: nat)
    requires j < rows * cols
    ensures cols > 0 && j / cols < rows && j % cols < cols
    ensures Offset(cols, j / cols, j % cols) == j
  {
    var r, c := j / cols, j % cols;
    assert j == r * cols + c;
    if r >= rows {
      MulMonotone(rows, r, cols);
    }
  }

  /** Two tensors of one shape whose cells all agree hold the same values. */
  lemma CellsDetermineValues(t: Tensor, u: Tensor)
    requires t.WellFormed() && u.HasShape(t.rows, t.cols)
    requires forall r: nat, c: nat :: r < t.rows && c < t.cols ==> Get(t, r, c) == Get(u, r, c)
    ensures t.values == u.values
  {
    forall j | 0 <= j < |t.values| ensures t.values[j] == u.values[j] {
      CellOf(t.rows, t.cols, j);
      assert Get(t, j / t.cols, j % t.cols) == Get(u, j / t.cols, j % t.cols);
    }
  }
}
