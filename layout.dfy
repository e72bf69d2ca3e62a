/** The addressing scheme of the parameter store. `StoreParameters` writes the
    network's tensors as one ordered sequence of named, shaped matrices;
    `LoadParameters` reads them back by position. This module gives both sides:
    the order in which the store is written (`StoreLayout`), the position each
    tensor is loaded from (`LoadIndex`), the file name each matrix is stored
    under (`StoreName`) and the tag each tensor is loaded with (`Tag`). */
module Layout {
  import opened Naming
  import opened Options

  /** Number of phase buckets, fixed by construction. */
  const BUCKETS: nat := 50
  /** Matrices per phase bucket: W0, W1, W2, b0, b1, b2. */
  const PER_BUCKET: nat := 6
  /** Position of the first style matrix: four normalisation vectors, then the buckets. */
  const STYLE_BASE: nat := 4 + BUCKETS * PER_BUCKET

  /** The network's configured dimensions: input, hidden, output, style. */
  datatype Dims = Dims(x: nat, h: nat, y: nat, s: nat)

  datatype NormParam = Xmean | Xstd | Ymean | Ystd
  datatype BucketParam = W0 | W1 | W2 | B0 | B1 | B2
  datatype StyleParam = SW | Sb

  /** The role of one tensor in the network. */
  datatype Role =
    | Norm(norm: NormParam)
    | Bucket(param: BucketParam, bucket: nat)
    | Style(style: StyleParam, index: nat)

  /** One entry of the parameter store: the file it was read from, its shape and
      its values. */
  datatype Matrix = Matrix(id: string, rows: nat, cols: nat, values: seq<real>)

  /** Role r names a tensor of a network with `sdim` style dimensions. */
  predicate RoleIn(r: Role, sdim: nat) {
    match r
    case Norm(_) => true
    case Bucket(_, i) => i < BUCKETS
    case Style(_, i) => i < sdim
  }

  /** Number of matrices in the store of a network with `sdim` style dimensions. */
  function ParameterCount(sdim: nat): nat {
    STYLE_BASE + 2 * sdim
  }

  function NormOffset(p: NormParam): nat {
    match p
    case Xmean => 0
    case Xstd => 1
    case Ymean => 2
    case Ystd => 3
  }

  function BucketOffset(p: BucketParam): nat {
    match p
    case W0 => 0
    case W1 => 1
    case W2 => 2
    case B0 => 3
    case B1 => 4
    case B2 => 5
  }

  function StyleOffset(p: StyleParam): nat {
    match p
    case SW => 0
    case Sb => 1
  }

  function NormAt(k: nat): NormParam
    requires k < 4
  {
    if k == 0 then Xmean else if k == 1 then Xstd else if k == 2 then Ymean else Ystd
  }

  function BucketParamAt(k: nat): BucketParam
    requires k < PER_BUCKET
  {
    if k == 0 then W0 else if k == 1 then W1 else if k == 2 then W2
    else if k == 3 then B0 else if k == 4 then B1 else B2
  }

  function StyleParamAt(k: nat): StyleParam
    requires k < 2
  {
    if k == 0 then SW else Sb
  }

  /** The store position `LoadParameters` reads the tensor of role r from. */
  function LoadIndex(r: Role): nat {
    match r
    case Norm(p) => NormOffset(p)
    case Bucket(p, i) => 4 + i * 6 + BucketOffset(p)
    case Style(p, i) => 4 + 50 * 6 + i * 2 + StyleOffset(p)
  }

  /** The role whose tensor is loaded from store position k. */
  function RoleAt(k: nat): Role {
    if k < 4 then Norm(NormAt(k))
    else if k < STYLE_BASE then Bucket(BucketParamAt((k - 4) % PER_BUCKET), (k - 4) / PER_BUCKET)
    else Style(StyleParamAt((k - STYLE_BASE) % 2), (k - STYLE_BASE) / 2)
  }

  /** Every tensor is loaded from a position inside the store, and that position
      is the tensor's own: RoleAt undoes LoadIndex. */
  lemma LoadIndexInverse(r: Role, sdim: nat)
    requires RoleIn(r, sdim)
    ensures LoadIndex(r) < ParameterCount(sdim)
    ensures RoleAt(LoadIndex(r)) == r
  {
    match r
    case Norm(p) =>
    case Bucket(p, i) =>
      var k := LoadIndex(r);
      assert k - 4 == i * 6 + BucketOffset(p);
      assert (k - 4) / PER_BUCKET == i && (k - 4) % PER_BUCKET == BucketOffset(p);
    case Style(p, i) =>
      var k := LoadIndex(r);
      assert k - STYLE_BASE == i * 2 + StyleOffset(p);
  }

  /** Every store position is read, by exactly the tensor RoleAt names:
      LoadIndex undoes RoleAt. */
  lemma RoleAtInverse(k: nat, sdim: nat)
    requires k < ParameterCount(sdim)
    ensures RoleIn(RoleAt(k), sdim)
    ensures LoadIndex(RoleAt(k)) == k
  {
    if 4 <= k < STYLE_BASE {
      var i, o := (k - 4) / PER_BUCKET, (k - 4) % PER_BUCKET;
      assert k == 4 + i * 6 + o;
    } else if STYLE_BASE <= k {
      var i, o := (k - STYLE_BASE) / 2, (k - STYLE_BASE) % 2;
      assert k == STYLE_BASE + i * 2 + o;
    }
  }

  /** No two tensors are loaded from the same position. */
  lemma LoadIndexInjective(r1: Role, r2: Role, sdim: nat)
    requires RoleIn(r1, sdim) && RoleIn(r2, sdim)
    requires LoadIndex(r1) == LoadIndex(r2)
    ensures r1 == r2
  {
    LoadIndexInverse(r1, sdim);
    LoadIndexInverse(r2, sdim);
  }

  /** The shape `(rows, cols)` the store records for the tensor of role r. */
  function Shape(r: Role, d: Dims): (nat, nat) {
    match r
    case Norm(p) => if p == Xmean || p == Xstd then (d.x, 1) else (d.y, 1)
    case Bucket(p, _) =>
      (match p
       case W0 => (d.h, d.x)
       case W1 => (d.h, d.h)
       case W2 => (d.y, d.h)
       case B0 => (d.h, 1)
       case B1 => (d.h, 1)
       case B2 => (d.y, 1))
    case Style(p, _) => if p == SW then (d.y, d.y) else (d.y, 1)
  }

  function BucketPrefix(p: BucketParam): string {
    match p
    case W0 => "W0_"
    case W1 => "W1_"
    case W2 => "W2_"
    case B0 => "b0_"
    case B1 => "b1_"
    case B2 => "b2_"
  }

  /** The file name of role r, without folder and extension: bucket indices are
      zero-padded to three digits, style indices are not padded. */
  function Stem(r: Role): string {
    match r
    case Norm(p) =>
      (match p case Xmean => "Xmean" case Xstd => "Xstd" case Ymean => "Ymean" case Ystd => "Ystd")
    case Bucket(p, i) => BucketPrefix(p) + ZeroPadded(i, 3)
    case Style(p, i) => (if p == SW then "cp3_a" else "cp3_b") + Decimal(i)
  }

  /** The file the matrix of role r is stored from. */
  function StoreName(folder: string, r: Role): string {
    folder + "/" + Stem(r) + ".bin"
  }

  function BucketParamOfPrefix(s: string): Option<BucketParam> {
    if s == "W0_" then Some(W0) else if s == "W1_" then Some(W1) else if s == "W2_" then Some(W2)
    else if s == "b0_" then Some(B0) else if s == "b1_" then Some(B1) else if s == "b2_" then Some(B2)
    else None
  }

  /** The role a file stem names, if any. */
  function RoleOfStem(stem: string): Option<Role> {
    if stem == "Xmean" then Some(Norm(Xmean))
    else if stem == "Xstd" then Some(Norm(Xstd))
    else if stem == "Ymean" then Some(Norm(Ymean))
    else if stem == "Ystd" then Some(Norm(Ystd))
    else if |stem| > 3 && BucketParamOfPrefix(stem[..3]).Some? && AllDigits(stem[3..]) then
      Some(Bucket(BucketParamOfPrefix(stem[..3]).value, DecimalValue(stem[3..])))
    else if |stem| > 5 && stem[..5] == "cp3_a" && AllDigits(stem[5..]) then
      Some(Style(SW, DecimalValue(stem[5..])))
    else if |stem| > 5 && stem[..5] == "cp3_b" && AllDigits(stem[5..]) then
      Some(Style(Sb, DecimalValue(stem[5..])))
    else None
  }

  /** The role a stored file name in `folder` names, if any. */
  function RoleOfName(folder: string, name: string): Option<Role> {
    var prefix := folder + "/";
    if |name| >= |prefix| + 4 && name[..|prefix|] == prefix && name[|name| - 4..] == ".bin"
    then RoleOfStem(name[|prefix|..|name| - 4])
    else None
  }

  /** Every stem reads back as the role it was made for. */
  lemma StemRoundTrip(r: Role)
    ensures RoleOfStem(Stem(r)) == Some(r)
  {
    match r
    case Norm(p) =>
    case Bucket(p, i) => BucketStemRoundTrip(p, i);
    case Style(p, i) => StyleStemRoundTrip(p, i);
  }

  lemma BucketStemRoundTrip(p: BucketParam, i: nat)
    ensures RoleOfStem(Stem(Bucket(p, i))) == Some(Bucket(p, i))
  {
    var stem, pre, z := Stem(Bucket(p, i)), BucketPrefix(p), ZeroPadded(i, 3);
    assert stem == pre + z && |pre| == 3;
    assert |stem| > 5;
    assert stem[..3] == pre && stem[3..] == z;
    assert BucketParamOfPrefix(pre) == Some(p) by {
      match p
      case W0 => case W1 => case W2 => case B0 => case B1 => case B2 =>
    }
    ZeroPaddedRoundTrip(i, 3);
  }

  lemma StyleStemRoundTrip(p: StyleParam, i: nat)
    ensures RoleOfStem(Stem(Style(p, i))) == Some(Style(p, i))
  {
    var stem, pre, z := Stem(Style(p, i)), if p == SW then "cp3_a" else "cp3_b", Decimal(i);
    assert stem == pre + z;
    assert |stem| > 5;
    assert stem[..3] == "cp3";
    assert BucketParamOfPrefix(stem[..3]).None?;
    assert stem[..5] == pre && stem[5..] == z;
    DecimalRoundTrip(i);
  }

  /** Every stored file name reads back as the role it was made for. */
  lemma NameRoundTrip(folder: string, r: Role)
    ensures RoleOfName(folder, StoreName(folder, r)) == Some(r)
  {
    var prefix, stem, name := folder + "/", Stem(r), StoreName(folder, r);
    assert name == prefix + stem + ".bin";
    assert name[..|prefix|] == prefix;
    assert name[|name| - 4..] == ".bin";
    assert name[|prefix|..|name| - 4] == stem;
    StemRoundTrip(r);
  }

  /** Different roles are stored under different file names. */
  lemma StoreNameInjective(folder: string, r1: Role, r2: Role)
    requires StoreName(folder, r1) == StoreName(folder, r2)
    ensures r1 == r2
  {
    NameRoundTrip(folder, r1);
    NameRoundTrip(folder, r2);
  }

  /** The normalisation vectors are stored from `<folder>/Xmean.bin`, ... */
  lemma NormFileNames(folder: string)
    ensures StoreName(folder, Norm(Xmean)) == folder + "/Xmean.bin"
    ensures StoreName(folder, Norm(Xstd)) == folder + "/Xstd.bin"
    ensures StoreName(folder, Norm(Ymean)) == folder + "/Ymean.bin"
    ensures StoreName(folder, Norm(Ystd)) == folder + "/Ystd.bin"
  {
    assert folder + "/" + "Xmean" + ".bin" == folder + "/Xmean.bin";
    assert folder + "/" + "Xstd" + ".bin" == folder + "/Xstd.bin";
    assert folder + "/" + "Ymean" + ".bin" == folder + "/Ymean.bin";
    assert folder + "/" + "Ystd" + ".bin" == folder + "/Ystd.bin";
  }

  /** Bucket i's tensors are stored from `<folder>/W0_<i>.bin`, ..., with i written
      in three digits, zero-padded. */
  lemma BucketFileNames(folder: string, i: nat)
    ensures var n := ZeroPadded(i, 3);
      StoreName(folder, Bucket(W0, i)) == folder + "/W0_" + n + ".bin" &&
      StoreName(folder, Bucket(W1, i)) == folder + "/W1_" + n + ".bin" &&
      StoreName(folder, Bucket(W2, i)) == folder + "/W2_" + n + ".bin" &&
      StoreName(folder, Bucket(B0, i)) == folder + "/b0_" + n + ".bin" &&
      StoreName(folder, Bucket(B1, i)) == folder + "/b1_" + n + ".bin" &&
      StoreName(folder, Bucket(B2, i)) == folder + "/b2_" + n + ".bin"
  {
    var n := ZeroPadded(i, 3);
    assert folder + "/" + ("W0_" + n) + ".bin" == folder + "/W0_" + n + ".bin";
    assert folder + "/" + ("W1_" + n) + ".bin" == folder + "/W1_" + n + ".bin";
    assert folder + "/" + ("W2_" + n) + ".bin" == folder + "/W2_" + n + ".bin";
    assert folder + "/" + ("b0_" + n) + ".bin" == folder + "/b0_" + n + ".bin";
    assert folder + "/" + ("b1_" + n) + ".bin" == folder + "/b1_" + n + ".bin";
    assert folder + "/" + ("b2_" + n) + ".bin" == folder + "/b2_" + n + ".bin";
  }

  /** Style set i's tensors are stored from `<folder>/cp3_a<i>.bin` and
      `<folder>/cp3_b<i>.bin`, with i not padded. */
  lemma StyleFileNames(folder: string, i: nat)
    ensures StoreName(folder, Style(SW, i)) == folder + "/cp3_a" + Decimal(i) + ".bin"
    ensures StoreName(folder, Style(Sb, i)) == folder + "/cp3_b" + Decimal(i) + ".bin"
  {
    var n := Decimal(i);
    assert folder + "/" + ("cp3_a" + n) + ".bin" == folder + "/cp3_a" + n + ".bin";
    assert folder + "/" + ("cp3_b" + n) + ".bin" == folder + "/cp3_b" + n + ".bin";
  }

  /** The diagnostic tag `LoadParameters` gives the tensor of role r: the index is
      appended unpadded and without separator. */
  function TagPrefix(p: BucketParam): string {
    match p
    case W0 => "W0"
    case W1 => "W1"
    case W2 => "W2"
    case B0 => "b0"
    case B1 => "b1"
    case B2 => "b2"
  }

  function Tag(r: Role): string {
    match r
    case Norm(p) => Stem(r)
    case Bucket(p, i) => TagPrefix(p) + Decimal(i)
    case Style(p, i) => (if p == SW then "SW" else "Sb") + Decimal(i)
  }

  /** `Parameters.Store(name, rows, cols)`: the matrix recorded under `name`, holding
      the first rows * cols values `read` yields for that file. */
  function Record(name: string, rows: nat, cols: nat, read: (string, nat) -> real): (m: Matrix)
    ensures |m.values| == rows * cols
  {
    Matrix(name, rows, cols, seq(rows * cols, j requires 0 <= j => read(name, j)))
  }

  /** The matrix `StoreParameters` records for role r: its file name, its shape,
      and rows * cols values read from that file. */
  function Entry(folder: string, d: Dims, read: (string, nat) -> real, r: Role): (m: Matrix)
    ensures m.id == StoreName(folder, r) && (m.rows, m.cols) == Shape(r, d)
    ensures |m.values| == m.rows * m.cols
  {
    var shape := Shape(r, d);
    Record(StoreName(folder, r), shape.0, shape.1, read)
  }

  /** The four normalisation entries, in store order. */
  function NormBlock<T>(e: Role -> T): seq<T> {
    [e(Norm(Xmean)), e(Norm(Xstd)), e(Norm(Ymean)), e(Norm(Ystd))]
  }

  /** The six entries of phase bucket i, in store order. */
  function BucketBlock<T>(e: Role -> T, i: nat): seq<T> {
    [e(Bucket(W0, i)), e(Bucket(W1, i)), e(Bucket(W2, i)),
     e(Bucket(B0, i)), e(Bucket(B1, i)), e(Bucket(B2, i))]
  }

  /** The two entries of style set i, in store order. */
  function StyleBlock<T>(e: Role -> T, i: nat): seq<T> {
    [e(Style(SW, i)), e(Style(Sb, i))]
  }

  /** Buckets 0 .. n-1, one block after another. */
  function BucketBlocks<T>(e: Role -> T, n: nat): seq<T> {
    if n == 0 then [] else BucketBlocks(e, n - 1) + BucketBlock(e, n - 1)
  }

  /** Style sets 0 .. n-1, one block after another. */
  function StyleBlocks<T>(e: Role -> T, n: nat): seq<T> {
    if n == 0 then [] else StyleBlocks(e, n - 1) + StyleBlock(e, n - 1)
  }

  /** One entry per role of a network with `sdim` style dimensions, in the order
      `StoreParameters` writes them. */
  function StoreOrder<T>(e: Role -> T, sdim: nat): seq<T> {
    NormBlock(e) + BucketBlocks(e, BUCKETS) + StyleBlocks(e, sdim)
  }

  /** Each further style set appends its block at the end of the store. */
  lemma StoreOrderStyleStep<T>(e: Role -> T, n: nat)
    ensures StoreOrder(e, n + 1) == StoreOrder(e, n) + StyleBlock(e, n)
  {
    var head := NormBlock(e) + BucketBlocks(e, BUCKETS);
    assert StyleBlocks(e, n + 1) == StyleBlocks(e, n) + StyleBlock(e, n);
    assert head + (StyleBlocks(e, n) + StyleBlock(e, n)) == (head + StyleBlocks(e, n)) + StyleBlock(e, n);
  }

  /** The entry of every role, for one folder, one set of dimensions and one
      reading of the files. */
  function Entries(folder: string, d: Dims, read: (string, nat) -> real): Role -> Matrix {
    r => Entry(folder, d, read, r)
  }

  /** The whole parameter store as `StoreParameters` writes it. */
  function StoreLayout(folder: string, d: Dims, read: (string, nat) -> real): seq<Matrix> {
    StoreOrder(Entries(folder, d, read), d.s)
  }

  lemma {:induction false} BucketBlocksLength<T>(e: Role -> T, n: nat)
    ensures |BucketBlocks(e, n)| == 6 * n
  {
    if n > 0 {
      BucketBlocksLength(e, n - 1);
    }
  }

  lemma {:induction false} BucketBlocksAt<T>(e: Role -> T, n: nat, i: nat, p: BucketParam)
    requires i < n
    ensures |BucketBlocks(e, n)| == 6 * n
    ensures BucketBlocks(e, n)[i * 6 + BucketOffset(p)] == e(Bucket(p, i))
  {
    BucketBlocksLength(e, n - 1);
    var prev, last := BucketBlocks(e, n - 1), BucketBlock(e, n - 1);
    assert BucketBlocks(e, n) == prev + last;
    if i < n - 1 {
      BucketBlocksAt(e, n - 1, i, p);
      assert i * 6 + BucketOffset(p) < 6 * (n - 1);
    } else {
      var k := BucketOffset(p);
      assert i * 6 == |prev|;
      assert (prev + last)[i * 6 + k] == last[k];
      assert last[k] == e(Bucket(p, i)) by {
        match p
        case W0 => case W1 => case W2 => case B0 => case B1 => case B2 =>
      }
    }
  }

  lemma {:induction false} StyleBlocksLength<T>(e: Role -> T, n: nat)
    ensures |StyleBlocks(e, n)| == 2 * n
  {
    if n > 0 {
      StyleBlocksLength(e, n - 1);
    }
  }

  lemma {:induction false} StyleBlocksAt<T>(e: Role -> T, n: nat, i: nat, p: StyleParam)
    requires i < n
    ensures |StyleBlocks(e, n)| == 2 * n
    ensures StyleBlocks(e, n)[i * 2 + StyleOffset(p)] == e(Style(p, i))
  {
    StyleBlocksLength(e, n - 1);
    var prev, last := StyleBlocks(e, n - 1), StyleBlock(e, n - 1);
    assert StyleBlocks(e, n) == prev + last;
    if i < n - 1 {
      StyleBlocksAt(e, n - 1, i, p);
      assert i * 2 + StyleOffset(p) < 2 * (n - 1);
    } else {
      var k := StyleOffset(p);
      assert i * 2 == |prev|;
      assert (prev + last)[i * 2 + k] == last[k];
      assert last[k] == e(Style(p, i)) by {
        match p
        case SW => case Sb =>
      }
    }
  }

  /** The order in which the store is written agrees with the positions the
      loader reads: the entry at `LoadIndex(r)` is the one written for role r. */
  lemma StoreOrderAt<T>(e: Role -> T, sdim: nat, r: Role)
    requires RoleIn(r, sdim)
    ensures LoadIndex(r) < |StoreOrder(e, sdim)| == ParameterCount(sdim)
    ensures StoreOrder(e, sdim)[LoadIndex(r)] == e(r)
  {
    LoadIndexInverse(r, sdim);
    var nb, bb, sb := NormBlock(e), BucketBlocks(e, BUCKETS), StyleBlocks(e, sdim);
    BucketBlocksLength(e, BUCKETS);
    StyleBlocksLength(e, sdim);
    var all := nb + bb + sb;
    match r
    case Norm(p) =>
      match p {
        case Xmean => case Xstd => case Ymean => case Ystd =>
      }
    case Bucket(p, i) =>
      BucketBlocksAt(e, BUCKETS, i, p);
      assert LoadIndex(r) == |nb| + (i * 6 + BucketOffset(p));
      assert all[LoadIndex(r)] == bb[i * 6 + BucketOffset(p)];
    case Style(p, i) =>
      StyleBlocksAt(e, sdim, i, p);
      assert LoadIndex(r) == |nb| + |bb| + (i * 2 + StyleOffset(p));
      assert all[LoadIndex(r)] == sb[i * 2 + StyleOffset(p)];
  }

  /** The store round trip: the matrix at the position `LoadParameters` reads for
      role r is the one `StoreParameters` wrote for r, under r's file name and
      with r's shape. */
  lemma StoreLayoutAt(folder: string, d: Dims, read: (string, nat) -> real, r: Role)
    requires RoleIn(r, d.s)
    ensures LoadIndex(r) < ParameterCount(d.s) == |StoreLayout(folder, d, read)|
    ensures StoreLayout(folder, d, read)[LoadIndex(r)] == Entry(folder, d, read, r)
    ensures StoreLayout(folder, d, read)[LoadIndex(r)].id == StoreName(folder, r)
    ensures (StoreLayout(folder, d, read)[LoadIndex(r)].rows,
             StoreLayout(folder, d, read)[LoadIndex(r)].cols) == Shape(r, d)
    ensures |StoreLayout(folder, d, read)[LoadIndex(r)].values| ==
              StoreLayout(folder, d, read)[LoadIndex(r)].rows * StoreLayout(folder, d, read)[LoadIndex(r)].cols
  {
    LoadIndexInverse(r, d.s);
    StoreOrderAt(Entries(folder, d, read), d.s, r);
  }

  /** No two matrices of the store share a file name. */
  lemma StoreNamesDistinct(folder: string, d: Dims, read: (string, nat) -> real, k1: nat, k2: nat)
    requires k1 < ParameterCount(d.s) && k2 < ParameterCount(d.s) && k1 != k2
    ensures |StoreLayout(folder, d, read)| == ParameterCount(d.s)
    ensures StoreLayout(folder, d, read)[k1].id != StoreLayout(folder, d, read)[k2].id
  {
    var r1, r2 := RoleAt(k1), RoleAt(k2);
    RoleAtInverse(k1, d.s);
    RoleAtInverse(k2, d.s);
    StoreLayoutAt(folder, d, read, r1);
    StoreLayoutAt(folder, d, read, r2);
    if StoreName(folder, r1) == StoreName(folder, r2) {
      StoreNameInjective(folder, r1, r2);
    }
  }

  /** The store holds a matrix for every role of a network with dimensions d,
      each with as many values as cells and with the shape of its role. */
  ghost predicate StoreAgrees(store: seq<Matrix>, d: Dims) {
    ParameterCount(d.s) <= |store| &&
    forall r :: RoleIn(r, d.s) ==>
      LoadIndex(r) < |store| &&
      (store[LoadIndex(r)].rows, store[LoadIndex(r)].cols) == Shape(r, d) &&
      |store[LoadIndex(r)].values| == store[LoadIndex(r)].rows * store[LoadIndex(r)].cols
  }

  /** A store written by `StoreParameters` agrees with the dimensions it was
      written for. */
  lemma StoreLayoutAgrees(folder: string, d: Dims, read: (string, nat) -> real)
    ensures StoreAgrees(StoreLayout(folder, d, read), d)
  {
    var store := StoreLayout(folder, d, read);
    StoreLayoutAt(folder, d, read, Norm(Xmean));
    forall r | RoleIn(r, d.s)
      ensures LoadIndex(r) < |store|
      ensures (store[LoadIndex(r)].rows, store[LoadIndex(r)].cols) == Shape(r, d)
      ensures |store[LoadIndex(r)].values| == store[LoadIndex(r)].rows * store[LoadIndex(r)].cols
    {
      StoreLayoutAt(folder, d, read, r);
      var m := store[LoadIndex(r)];
      assert |m.values| == m.rows * m.cols;
    }
  }
}
