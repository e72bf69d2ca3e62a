/** The SPFNN inference engine: a phase-functioned network with fifty phase buckets
    of weights and a style layer. The engine stores its parameters as one ordered
    sequence of matrices, loads them back by position, and on every prediction
    runs the network for the bucket its phase selects and then advances the phase.
    The numeric kernels are uninterpreted (module Network).
    A postcondition written `P(...) == true` states P as one whole fact. */
module Spfnn {
  import opened Options
  import opened Tensors
  import opened StyleLayer
  import opened Network
  import opened PhaseCycle
  import Naming
  import Layout

  /** `CreateTensor(matrix, tag)`: a tensor holding a stored matrix, under a tag. */
  function CreateTensor(m: Layout.Matrix, tag: string): (t: Tensor)
    ensures t.id == tag && (t.rows, t.cols) == (m.rows, m.cols) && t.values == m.values
    ensures t.WellFormed() <==> |m.values| == m.rows * m.cols
  {
    Tensor(tag, m.rows, m.cols, m.values)
  }

  class SPFNN {
    /** The numeric kernels of the engine's base class. */
    const kernels: Kernels

    /** The folder the parameter files are read from. */
    var Folder: string
    /** The parameter store: absent until `StoreParameters` has run. */
    var Parameters: Option<seq<Layout.Matrix>>

    var XDim: nat
    var HDim: nat
    var YDim: nat
    var SDim: nat
    /** The input positions whose values are the style scalars. */
    var StyleNeurons: seq<int>
    /** The output position that drives the phase. */
    var PhaseIndex: int

    var Xmean: Option<Tensor>
    var Xstd: Option<Tensor>
    var Ymean: Option<Tensor>
    var Ystd: Option<Tensor>
    var W0: seq<Tensor>
    var W1: seq<Tensor>
    var W2: seq<Tensor>
    var b0: seq<Tensor>
    var b1: seq<Tensor>
    var b2: seq<Tensor>
    var SW: seq<Tensor>
    var Sb: seq<Tensor>
    var X: Option<Tensor>
    var Y: Option<Tensor>
    var WS: Option<Tensor>
    var bS: Option<Tensor>

    var Phase: real
    var Damping: real

    /** The phase lies inside one cycle. */
    predicate Valid()
      reads this`Phase
    {
      0.0 <= Phase < TWO_PI
    }

    /** The configured dimensions. */
    function Dimensions(): Layout.Dims
      reads this`XDim, this`HDim, this`YDim, this`SDim
    {
      Layout.Dims(XDim, HDim, YDim, SDim)
    }

    /** Every parameter tensor exists: fifty of each bucket tensor, SDim of each
        style tensor. */
    predicate Loaded()
      reads this
    {
      Xmean.Some? && Xstd.Some? && Ymean.Some? && Ystd.Some? &&
      |W0| == |W1| == |W2| == |b0| == |b1| == |b2| == Layout.BUCKETS &&
      |SW| == |Sb| == SDim
    }

    /** The loaded tensor of role r. */
    function Param(r: Layout.Role): Tensor
      requires Loaded() && Layout.RoleIn(r, SDim)
      reads this
    {
      match r
      case Norm(p) =>
        if p.Xmean? then Xmean.value else if p.Xstd? then Xstd.value
        else if p.Ymean? then Ymean.value else Ystd.value
      case Bucket(p, i) =>
        if p.W0? then W0[i] else if p.W1? then W1[i] else if p.W2? then W2[i]
        else if p.B0? then b0[i] else if p.B1? then b1[i] else b2[i]
      case Style(p, i) => if p.SW? then SW[i] else Sb[i]
    }

    /** Every loaded tensor has the shape its role calls for. */
    ghost predicate ShapesAgree()
      requires Loaded()
      reads this
    {
      forall r :: Layout.RoleIn(r, SDim) ==>
        Param(r).WellFormed() && (Param(r).rows, Param(r).cols) == Layout.Shape(r, Dimensions())
    }

    /** The style neurons pick SDim positions of the input, and the phase index
        a position of the output. */
    predicate Configured()
      reads this
    {
      SDim <= |StyleNeurons| &&
      (forall i :: 0 <= i < SDim ==> 0 <= StyleNeurons[i] < XDim) &&
      0 <= PhaseIndex < YDim
    }

    /** The engine can predict: loaded, every tensor of the right shape, and
        configured consistently. */
    ghost predicate Ready()
      reads this
    {
      Loaded() && ShapesAgree() && Configured() &&
      X.Some? && Y.Some? && WS.Some? && bS.Some? &&
      X.value.HasShape(XDim, 1) && Y.value.HasShape(YDim, 1) &&
      WS.value.HasShape(YDim, YDim) && bS.value.HasShape(YDim, 1)
    }

    /** A fresh engine for the given configuration: nothing stored, nothing loaded,
        phase and damping zero. */
    constructor(kernels: Kernels, folder: string, xDim: nat, hDim: nat, yDim: nat, sDim: nat,
                styleNeurons: seq<int>, phaseIndex: int)
      ensures this.kernels == kernels && Folder == folder
      ensures Dimensions() == Layout.Dims(xDim, hDim, yDim, sDim)
      ensures StyleNeurons == styleNeurons && PhaseIndex == phaseIndex
      ensures Parameters.None?
      ensures Xmean.None? && Xstd.None? && Ymean.None? && Ystd.None?
      ensures X.None? && Y.None? && WS.None? && bS.None?
      ensures W0 == W1 == W2 == b0 == b1 == b2 == SW == Sb == []
      ensures Phase == 0.0 && Damping == 0.0
      ensures Valid()
    {
      this.kernels := kernels;
      Folder := folder;
      XDim, HDim, YDim, SDim := xDim, hDim, yDim, sDim;
      StyleNeurons, PhaseIndex := styleNeurons, phaseIndex;
      Parameters := None;
      Xmean, Xstd, Ymean, Ystd := None, None, None, None;
      X, Y, WS, bS := None, None, None, None;
      W0, W1, W2, b0, b1, b2, SW, Sb := [], [], [], [], [], [], [], [];
      Phase, Damping := 0.0, 0.0;
    }

    /** Records every parameter file in a new store, in the order the loader reads
        them back: the normalisation vectors, the six tensors of each bucket, and the
        two tensors of each style set. Each record is read from the file of its role
        (`Layout.StoreName`) with the shape of its role (`Layout.Shape`). */
    method StoreParameters(read: (string, nat) -> real)
      modifies this`Parameters
      ensures Parameters == Some(Layout.StoreLayout(Folder, Dimensions(), read))
    {
      var store := StoreRecords(Layout.Entries(Folder, Dimensions(), read), SDim);
      Parameters := Some(store);
    }

    /** Builds every tensor from the store: the matrix at position
        `Layout.LoadIndex(r)` becomes the tensor of role r, tagged `Layout.Tag(r)`
        (see `LoadedFrom` and `ParamsLoaded`), the working tensors are zeroed and
        phase and damping restart at 0; when the store agrees with the dimensions the
        engine is then ready to predict (`ReadyLoaded`). Without a store nothing
        happens. */
    method LoadParameters()
      requires Parameters.Some? ==> Layout.ParameterCount(SDim) <= |Parameters.value|
      modifies this`Xmean, this`Xstd, this`Ymean, this`Ystd
      modifies this`W0, this`W1, this`W2, this`b0, this`b1, this`b2, this`SW, this`Sb
      modifies this`X, this`Y, this`WS, this`bS, this`Phase, this`Damping
      ensures Parameters.None? ==> unchanged(this)
      ensures Parameters.Some? ==> Initialised(Parameters.value) == true
    {
      if Parameters.Some? {
        Load(Parameters.value);
      }
    }

    /** Loading from a store: every parameter tensor is read from it and the
        working state starts afresh. */
    method Load(store: seq<Layout.Matrix>)
      requires Layout.ParameterCount(SDim) <= |store|
      modifies this`Xmean, this`Xstd, this`Ymean, this`Ystd
      modifies this`W0, this`W1, this`W2, this`b0, this`b1, this`b2, this`SW, this`Sb
      modifies this`X, this`Y, this`WS, this`bS, this`Phase, this`Damping
      ensures Initialised(store) == true
    {
      LoadTensors(store);
      Reset();
    }

    /** The parameters are those of the store and the working state is fresh. */
    ghost predicate Initialised(store: seq<Layout.Matrix>)
      reads this`Xmean, this`Xstd, this`Ymean, this`Ystd
      reads this`W0, this`W1, this`W2, this`b0, this`b1, this`b2, this`SW, this`Sb, this`SDim
      reads this`X, this`Y, this`WS, this`bS, this`XDim, this`YDim, this`Phase, this`Damping
    {
      LoadedFrom(store, Layout.Tag) && Fresh()
    }

    /** Every parameter tensor from the store: the normalisation vectors, the
        bucket arrays and the style arrays. */
    method LoadTensors(store: seq<Layout.Matrix>)
      requires Layout.ParameterCount(SDim) <= |store|
      modifies this`Xmean, this`Xstd, this`Ymean, this`Ystd
      modifies this`W0, this`W1, this`W2, this`b0, this`b1, this`b2, this`SW, this`Sb
      ensures LoadedFrom(store, Layout.Tag)
    {
      LoadNormalisation(store);
      LoadBuckets(store);
      LoadStyles(store);
    }

    /** The normalisation vectors of the store, positions 0 to 3. */
    method LoadNormalisation(store: seq<Layout.Matrix>)
      requires Layout.STYLE_BASE <= |store|
      modifies this`Xmean, this`Xstd, this`Ymean, this`Ystd
      ensures NormsFrom(store, Layout.Tag)
    {
      Xmean := Some(CreateTensor(store[0], "Xmean"));
      Xstd := Some(CreateTensor(store[1], "Xstd"));
      Ymean := Some(CreateTensor(store[2], "Ymean"));
      Ystd := Some(CreateTensor(store[3], "Ystd"));
    }

    /** The six bucket arrays, filled from positions 4 to 303. */
    method LoadBuckets(store: seq<Layout.Matrix>)
      requires Layout.STYLE_BASE <= |store|
      modifies this`W0, this`W1, this`W2, this`b0, this`b1, this`b2
      ensures BucketsFrom(store, Layout.Tag)
    {
      W0, W1, W2, b0, b1, b2 := LoadBucketSets(store, Layout.Tag);
    }

    /** The two style arrays, filled from positions 304 to 304 + 2 * SDim - 1. */
    method LoadStyles(store: seq<Layout.Matrix>)
      requires Layout.ParameterCount(SDim) <= |store|
      modifies this`SW, this`Sb
      ensures StylesFrom(store, Layout.Tag)
    {
      SW, Sb := LoadStyleSets(store, SDim, Layout.Tag);
    }

    /** The zero-filled working tensors: the blended style layer, input and output. */
    method Reset()
      modifies this`X, this`Y, this`WS, this`bS, this`Phase, this`Damping
      ensures Fresh()
    {
      WS := Some(Create(YDim, YDim, "WS"));
      bS := Some(Create(YDim, 1, "bS"));
      X := Some(Create(XDim, 1, "X"));
      Y := Some(Create(YDim, 1, "Y"));
      Phase := 0.0;
      Damping := 0.0;
    }

    /** The working state is fresh: zeroed buffers, phase and damping 0. */
    predicate Fresh()
      reads this`X, this`Y, this`WS, this`bS, this`XDim, this`YDim, this`Phase, this`Damping
    {
      Buffered() && Phase == 0.0 && Damping == 0.0
    }

    /** The working tensors are freshly zeroed: WS is `YDim x YDim`, bS and Y are
        `YDim x 1` and X is `XDim x 1`. */
    predicate Buffered()
      reads this`X, this`Y, this`WS, this`bS, this`XDim, this`YDim
    {
      WS == Some(Create(YDim, YDim, "WS")) && bS == Some(Create(YDim, 1, "bS")) &&
      X == Some(Create(XDim, 1, "X")) && Y == Some(Create(YDim, 1, "Y"))
    }

    /** The four normalisation tensors are the store's positions 0 to 3. */
    ghost predicate NormsFrom(store: seq<Layout.Matrix>, tag: Layout.Role -> string)
      reads this`Xmean, this`Xstd, this`Ymean, this`Ystd
    {
      Layout.STYLE_BASE <= |store| &&
      Xmean == Some(LoadedTensor(store, tag, Layout.Norm(Layout.Xmean))) &&
      Xstd == Some(LoadedTensor(store, tag, Layout.Norm(Layout.Xstd))) &&
      Ymean == Some(LoadedTensor(store, tag, Layout.Norm(Layout.Ymean))) &&
      Ystd == Some(LoadedTensor(store, tag, Layout.Norm(Layout.Ystd)))
    }

    /** Each of the six bucket arrays holds fifty tensors, entry i of array p being
        the tensor of role `Bucket(p, i)`. */
    ghost predicate BucketsFrom(store: seq<Layout.Matrix>, tag: Layout.Role -> string)
      reads this`W0, this`W1, this`W2, this`b0, this`b1, this`b2
    {
      Layout.STYLE_BASE <= |store| &&
      |W0| == |W1| == |W2| == |b0| == |b1| == |b2| == Layout.BUCKETS &&
      forall i :: 0 <= i < Layout.BUCKETS ==>
        W0[i] == LoadedTensor(store, tag, Layout.Bucket(Layout.W0, i)) &&
        W1[i] == LoadedTensor(store, tag, Layout.Bucket(Layout.W1, i)) &&
        W2[i] == LoadedTensor(store, tag, Layout.Bucket(Layout.W2, i)) &&
        b0[i] == LoadedTensor(store, tag, Layout.Bucket(Layout.B0, i)) &&
        b1[i] == LoadedTensor(store, tag, Layout.Bucket(Layout.B1, i)) &&
        b2[i] == LoadedTensor(store, tag, Layout.Bucket(Layout.B2, i))
    }

    /** Each of the two style arrays holds SDim tensors, entry i of array p being the
        tensor of role `Style(p, i)`. */
    ghost predicate StylesFrom(store: seq<Layout.Matrix>, tag: Layout.Role -> string)
      reads this`SW, this`Sb, this`SDim
    {
      Layout.ParameterCount(SDim) <= |store| &&
      |SW| == |Sb| == SDim &&
      forall i :: 0 <= i < SDim ==>
        SW[i] == LoadedTensor(store, tag, Layout.Style(Layout.SW, i)) &&
        Sb[i] == LoadedTensor(store, tag, Layout.Style(Layout.Sb, i))
    }

    /** Every parameter tensor was built from the store. */
    ghost predicate LoadedFrom(store: seq<Layout.Matrix>, tag: Layout.Role -> string)
      reads this`Xmean, this`Xstd, this`Ymean, this`Ystd
      reads this`W0, this`W1, this`W2, this`b0, this`b1, this`b2, this`SW, this`Sb, this`SDim
    {
      NormsFrom(store, tag) && BucketsFrom(store, tag) && StylesFrom(store, tag)
    }

    /** Loaded from the store, every parameter exists, and the tensor of each role r
        is the matrix at store position `Layout.LoadIndex(r)`, tagged `tag(r)`. */
    lemma ParamsLoaded(store: seq<Layout.Matrix>, tag: Layout.Role -> string)
      requires LoadedFrom(store, tag)
      ensures Loaded()
      ensures forall r :: Layout.RoleIn(r, SDim) ==>
        Layout.LoadIndex(r) < |store| && Param(r) == LoadedTensor(store, tag, r)
    {
      forall r | Layout.RoleIn(r, SDim)
        ensures Layout.LoadIndex(r) < |store| && Param(r) == LoadedTensor(store, tag, r)
      {
        Layout.LoadIndexInverse(r, SDim);
      }
    }

    /** A store that agrees with the engine's dimensions gives every loaded
        tensor the shape of its role. */
    lemma ShapesLoaded(store: seq<Layout.Matrix>, tag: Layout.Role -> string)
      requires Layout.StoreAgrees(store, Dimensions()) && LoadedFrom(store, tag)
      ensures Loaded() && ShapesAgree()
    {
      ParamsLoaded(store, tag);
      forall r | Layout.RoleIn(r, SDim)
        ensures Param(r).WellFormed() && (Param(r).rows, Param(r).cols) == Layout.Shape(r, Dimensions())
      {
        LoadedShape(store, tag, Dimensions(), r);
      }
    }

    /** After `LoadParameters` from a store that agrees with the dimensions, with a
        consistent configuration, the engine is ready to predict. */
    lemma ReadyLoaded(store: seq<Layout.Matrix>)
      requires Initialised(store)
      requires Layout.StoreAgrees(store, Dimensions())
      requires Configured()
      ensures Ready() && Valid()
    {
      ShapesLoaded(store, Layout.Tag);
    }

    /** The store/load round trip of the engine: once `StoreParameters(read)` has
        written the store and `LoadParameters()` has read it back, every parameter
        exists and the tensor of each role r is r's stored record (r's file, r's
        shape, the values read for it) under the tag of r; with a consistent
        configuration the engine is ready to predict. */
    lemma StoredThenLoaded(read: (string, nat) -> real)
      requires Parameters == Some(Layout.StoreLayout(Folder, Dimensions(), read))
      requires Initialised(Parameters.value)
      ensures Loaded()
      ensures forall r :: Layout.RoleIn(r, SDim) ==>
        Param(r) == CreateTensor(Layout.Entry(Folder, Dimensions(), read, r), Layout.Tag(r))
      ensures Configured() ==> Ready() && Valid()
    {
      var store := Parameters.value;
      Layout.StoreLayoutAgrees(Folder, Dimensions(), read);
      ParamsLoaded(store, Layout.Tag);
      forall r | Layout.RoleIn(r, SDim)
        ensures Param(r) == CreateTensor(Layout.Entry(Folder, Dimensions(), read, r), Layout.Tag(r))
      {
        Layout.StoreLayoutAt(Folder, Dimensions(), read, r);
      }
      if Configured() {
        ReadyLoaded(store);
      }
    }

    /** `SetInput(index, value)`: input entry `index` becomes value; every other
        entry keeps its value. */
    method SetInput(index: nat, value: real)
      requires X.Some? && X.value.WellFormed() && index < X.value.rows && 0 < X.value.cols
      modifies this`X
      ensures X == Some(Set(old(X.value), index, 0, value))
      ensures X.value.HasShape(old(X.value).rows, old(X.value).cols)
      ensures Get(X.value, index, 0) == value
      ensures forall r: nat :: r < X.value.rows && r != index ==> Get(X.value, r, 0) == Get(old(X.value), r, 0)
      ensures old(Ready()) ==> Ready()
    {
      X := Some(Set(X.value, index, 0, value));
    }

    /** `GetOutput(index)`: output entry `index` of the last prediction, that is
        cell (index, 0) of Y, the index-th value when Y is a column vector. */
    function GetOutput(index: nat): (o: real)
      requires Y.Some? && Y.value.WellFormed() && index < Y.value.rows && 0 < Y.value.cols
      reads this`Y
      ensures index * Y.value.cols < |Y.value.values| && o == Y.value.values[index * Y.value.cols]
      ensures Y.value.cols == 1 ==> o == Y.value.values[index]
    {
      OffsetInBounds(Y.value.rows, Y.value.cols, index, 0);
      Get(Y.value, index, 0)
    }

    /** `SetDamping(value)`: the only operation besides loading that changes the
        damping of the phase update. */
    method SetDamping(value: real)
      modifies this`Damping
      ensures Damping == value
    {
      Damping := value;
    }

    /** `GetPhase()`: the current phase. */
    function GetPhase(): (p: real)
      reads this`Phase
      ensures p == Phase
    {
      Phase
    }

    /** The style values of a prediction: input entry `StyleNeurons[i]` for style i. */
    function Styles(): (s: seq<real>)
      requires Configured() && X.Some? && X.value.HasShape(XDim, 1)
      reads this
      ensures |s| == SDim
    {
      StyleValues(X.value, StyleNeurons, SDim)
    }

    /** Every style weight set is `YDim x YDim` and every style bias set `YDim x 1`. */
    lemma StyleShapes()
      requires Ready()
      ensures Shaped(SW, SDim, YDim, YDim) && Shaped(Sb, SDim, YDim, 1)
    {
      forall i | 0 <= i < SDim
        ensures SW[i].HasShape(YDim, YDim) && Sb[i].HasShape(YDim, 1)
      {
        assert Param(Layout.Style(Layout.SW, i)) == SW[i];
        assert Param(Layout.Style(Layout.Sb, i)) == Sb[i];
      }
    }

    /** The output a prediction computes from the current state: the input
        normalised, passed through the three ELU layers of the phase's bucket, then
        through the style layer blended from the style values, and renormalised. */
    ghost function Forward(): (y: Tensor)
      requires Ready() && Valid()
      reads this
      ensures y.HasShape(YDim, 1) && y.id == Y.value.id
    {
      Pass(BlendedWS(), BlendedBS())
    }

    /** The style weights a prediction blends: WS zeroed, then `S[i] * SW[i]` added
        for every style i. */
    ghost function BlendedWS(): (ws: Tensor)
      requires Ready()
      reads this
      ensures ws.HasShape(YDim, YDim) && ws.id == WS.value.id
    {
      StyleShapes();
      Accumulate(Zeroed(WS.value), SW, Styles(), SDim)
    }

    /** The style bias a prediction blends: bS zeroed, then `S[i] * Sb[i]` added
        for every style i. */
    ghost function BlendedBS(): (bs: Tensor)
      requires Ready()
      reads this
      ensures bs.HasShape(YDim, 1) && bs.id == bS.value.id
    {
      StyleShapes();
      Accumulate(Zeroed(bS.value), Sb, Styles(), SDim)
    }

    /** Each cell of the blended style layer is the weighted sum of that cell over
        the style sets, `S[0]*SW[0][r,c] + ... + S[SDim-1]*SW[SDim-1][r,c]`: nothing
        of the previous WS or bS survives the blend. */
    lemma BlendedCells(r: nat, c: nat)
      requires Ready() && r < YDim
      ensures Shaped(SW, SDim, YDim, YDim) && Shaped(Sb, SDim, YDim, 1)
      ensures c < YDim ==> Get(BlendedWS(), r, c) == WeightedSum(SW, Styles(), SDim, YDim, YDim, r, c)
      ensures Get(BlendedBS(), r, 0) == WeightedSum(Sb, Styles(), SDim, YDim, 1, r, 0)
    {
      StyleShapes();
      if c < YDim {
        BlendFromZero(WS.value, SW, Styles(), SDim, r, c);
      }
      BlendFromZero(bS.value, Sb, Styles(), SDim, r, 0);
    }

    /** The input, the output and the normalisation and bucket tensors a network
        pass reads exist, fifty of each bucket tensor. */
    predicate BucketsLoaded()
      reads this`X, this`Y, this`Xmean, this`Xstd, this`Ymean, this`Ystd
      reads this`W0, this`W1, this`W2, this`b0, this`b1, this`b2
    {
      X.Some? && Y.Some? && Xmean.Some? && Xstd.Some? && Ymean.Some? && Ystd.Some? &&
      |W0| == |W1| == |W2| == |b0| == |b1| == |b2| == Layout.BUCKETS
    }

    /** The network pass from the current input with the style layer ws, bs and the
        bucket the current phase selects. */
    ghost function Pass(ws: Tensor, bs: Tensor): (y: Tensor)
      requires BucketsLoaded() && Valid()
      reads this`X, this`Y, this`Xmean, this`Xstd, this`Ymean, this`Ystd, this`Phase
      reads this`W0, this`W1, this`W2, this`b0, this`b1, this`b2
      ensures y.HasShape(ws.rows, X.value.cols) && y.id == Y.value.id
    {
      BucketIndexInRange(Phase);
      var i := BucketIndex(Phase);
      Propagate(kernels, X.value, Xmean.value, Xstd.value, Y.value,
                W0[i], b0[i], W1[i], b1[i], W2[i], b2[i], ws, bs, Ymean.value, Ystd.value)
    }

    /** Writing only the working tensors X, Y, WS and bS, each kept at its shape,
        keeps the engine ready. */
    twostate lemma ReadyKept()
      requires old(Ready())
      requires unchanged(this`Xmean, this`Xstd, this`Ymean, this`Ystd, this`W0, this`W1, this`W2)
      requires unchanged(this`b0, this`b1, this`b2, this`SW, this`Sb)
      requires unchanged(this`XDim, this`HDim, this`YDim, this`SDim, this`StyleNeurons, this`PhaseIndex)
      requires X.Some? && X.value.HasShape(XDim, 1) && Y.Some? && Y.value.HasShape(YDim, 1)
      requires WS.Some? && WS.value.HasShape(YDim, YDim) && bS.Some? && bS.value.HasShape(YDim, 1)
      ensures Ready()
    {
      forall r | Layout.RoleIn(r, SDim)
        ensures Param(r) == old(Param(r))
      {
      }
    }

    /** `Predict()`: one step of the network. The output is `Forward()` of the state
        before the call, the style layer holds the style sets blended by the style
        values, and the phase advances by the damped phase output. */
    method Predict()
      requires Ready() && Valid()
      modifies this`Y, this`WS, this`bS, this`Phase
      ensures Ready() && Valid()
      ensures Y == Some(old(Forward()))
      ensures WS == Some(old(BlendedWS())) && bS == Some(old(BlendedBS()))
      ensures Phase == Advance(old(Phase), Damping, GetOutput(PhaseIndex))
      ensures Damping == 1.0 ==> Phase == old(Phase)
    {
      BlendStyleLayer();
      Infer();
      UpdatePhase();
    }

    /** The network pass of `Predict()`: Y becomes the output of the current input
        through the phase's bucket and the current style layer. */
    method Infer()
      requires Ready() && Valid()
      modifies this`Y
      ensures Ready() && Valid()
      ensures Y == Some(old(Pass(WS.value, bS.value)))
    {
      BucketIndexInRange(Phase);
      var index := BucketIndex(Phase);
      var y := Propagate(kernels, X.value, Xmean.value, Xstd.value, Y.value,
                         W0[index], b0[index], W1[index], b1[index], W2[index], b2[index],
                         WS.value, bS.value, Ymean.value, Ystd.value);
      Y := Some(y);
      ReadyKept();
    }

    /** The style layer of `Predict()`: WS and bS zeroed, then style set i blended
        in with weight S[i] for every style i. */
    method BlendStyleLayer()
      requires Ready() && Valid()
      modifies this`WS, this`bS
      ensures Ready() && Valid()
      ensures WS == Some(old(BlendedWS())) && bS == Some(old(BlendedBS()))
    {
      StyleShapes();
      var s := ReadStyles(X.value, StyleNeurons, SDim);
      var ws, bs := BlendStyles(WS.value, bS.value, SW, Sb, s, SDim);
      WS := Some(ws);
      bS := Some(bs);
      ReadyKept();
    }

    /** The phase update of `Predict()`: the phase advances by the damped phase
        output of Y and stays inside one cycle; full damping keeps it where it was. */
    method UpdatePhase()
      requires Ready() && Valid()
      modifies this`Phase
      ensures Ready() && Valid()
      ensures Phase == Advance(old(Phase), Damping, GetOutput(PhaseIndex))
      ensures Damping == 1.0 ==> Phase == old(Phase)
    {
      var output := GetOutput(PhaseIndex);
      AdvanceInRange(Phase, Damping, output);
      if Damping == 1.0 {
        AdvanceFullDamping(Phase, output);
      }
      Phase := Advance(Phase, Damping, output);
      ReadyKept();
    }
  }

  /** The network pass of a prediction on values: the input x normalised into y,
      three ELU layers with the bucket's weights, the style layer with the
      blended weights ws and bias bs, and the result renormalised. The output has
      one row per row of ws and the columns of the input. */
  function Propagate(k: Kernels, x: Tensor, xmean: Tensor, xstd: Tensor, y: Tensor,
                     w0: Tensor, c0: Tensor, w1: Tensor, c1: Tensor, w2: Tensor, c2: Tensor,
                     ws: Tensor, bs: Tensor, ymean: Tensor, ystd: Tensor): (u: Tensor)
    ensures u.HasShape(ws.rows, x.cols) && u.id == y.id
  {
    var y0 := Normalise(k, x, xmean, xstd, y);
    var y1 := ELU(k, Layer(k, y0, w0, c0, y0));
    var y2 := ELU(k, Layer(k, y1, w1, c1, y1));
    var y3 := ELU(k, Layer(k, y2, w2, c2, y2));
    var y4 := Layer(k, y3, ws, bs, y3);
    Renormalise(k, y4, ymean, ystd, y4)
  }

  /** The style values of `Predict`: entry `neurons[i]` of the input x for each
      style i, read into a new array before the input is normalised. */
  method ReadStyles(x: Tensor, neurons: seq<int>, n: nat) returns (s: seq<real>)
    requires x.WellFormed() && 0 < x.cols && n <= |neurons|
    requires forall i :: 0 <= i < n ==> 0 <= neurons[i] < x.rows
    ensures s == StyleValues(x, neurons, n)
  {
    var S := new real[n];
    for i := 0 to n
      invariant forall j :: 0 <= j < i ==> S[j] == Get(x, neurons[j], 0)
    {
      S[i] := Get(x, neurons[i], 0);
    }
    s := S[..];
  }

  /** The style layer of `Predict`: ws and bs zeroed, then style set i blended in
      with weight s[i] for i = 0, ..., n-1, so that every cell holds the weighted
      sum of that cell over the style sets. */
  method BlendStyles(ws0: Tensor, bs0: Tensor, sw: seq<Tensor>, sb: seq<Tensor>, s: seq<real>, n: nat)
    returns (ws: Tensor, bs: Tensor)
    requires n <= |s|
    requires ws0.WellFormed() && Shaped(sw, n, ws0.rows, ws0.cols)
    requires bs0.WellFormed() && Shaped(sb, n, bs0.rows, bs0.cols)
    ensures ws == Accumulate(Zeroed(ws0), sw, s, n)
    ensures bs == Accumulate(Zeroed(bs0), sb, s, n)
    ensures ws.HasShape(ws0.rows, ws0.cols) && bs.HasShape(bs0.rows, bs0.cols)
    ensures forall r: nat, c: nat :: r < ws0.rows && c < ws0.cols ==>
      Get(ws, r, c) == WeightedSum(sw, s, n, ws0.rows, ws0.cols, r, c)
    ensures forall r: nat, c: nat :: r < bs0.rows && c < bs0.cols ==>
      Get(bs, r, c) == WeightedSum(sb, s, n, bs0.rows, bs0.cols, r, c)
  {
    ws := Zeroed(ws0);
    bs := Zeroed(bs0);
    for i := 0 to n
      invariant ws == Accumulate(Zeroed(ws0), sw, s, i)
      invariant bs == Accumulate(Zeroed(bs0), sb, s, i)
    {
      ws := Blend(ws, sw[i], s[i]);
      bs := Blend(bs, sb[i], s[i]);
    }
    forall r: nat, c: nat | r < ws0.rows && c < ws0.cols
      ensures Get(ws, r, c) == WeightedSum(sw, s, n, ws0.rows, ws0.cols, r, c)
    {
      BlendFromZero(ws0, sw, s, n, r, c);
    }
    forall r: nat, c: nat | r < bs0.rows && c < bs0.cols
      ensures Get(bs, r, c) == WeightedSum(sb, s, n, bs0.rows, bs0.cols, r, c)
    {
      BlendFromZero(bs0, sb, s, n, r, c);
    }
  }

  /** The values `x[neurons[0], 0], ..., x[neurons[n-1], 0]`: the input entries
      that carry the style. */
  function StyleValues(x: Tensor, neurons: seq<int>, n: nat): (s: seq<real>)
    requires x.WellFormed() && 0 < x.cols && n <= |neurons|
    requires forall i :: 0 <= i < n ==> 0 <= neurons[i] < x.rows
    ensures |s| == n
    ensures forall i :: 0 <= i < n ==> s[i] == Get(x, neurons[i], 0)
  {
    if n == 0 then [] else StyleValues(x, neurons, n - 1) + [Get(x, neurons[n - 1], 0)]
  }

  /** The tensor made of the store's matrix at position `Layout.LoadIndex(r)`,
      under the tag `tag(r)`. */
  function LoadedTensor(store: seq<Layout.Matrix>, tag: Layout.Role -> string, r: Layout.Role): Tensor
    requires Layout.LoadIndex(r) < |store|
  {
    CreateTensor(store[Layout.LoadIndex(r)], tag(r))
  }

  /** A store that agrees with dimensions d yields, for every role, a well-formed
      tensor of the role's shape. */
  lemma LoadedShape(store: seq<Layout.Matrix>, tag: Layout.Role -> string, d: Layout.Dims, r: Layout.Role)
    requires Layout.StoreAgrees(store, d) && Layout.RoleIn(r, d.s)
    ensures Layout.LoadIndex(r) < |store|
    ensures LoadedTensor(store, tag, r).WellFormed()
    ensures (LoadedTensor(store, tag, r).rows, LoadedTensor(store, tag, r).cols) == Layout.Shape(r, d)
  {
  }

  /** The bucket arrays of `LoadParameters`: six fresh arrays of `Layout.BUCKETS`
      tensors, entry i of W0 made from store position 4 + 6i, of W1 from 4 + 6i + 1,
      and so on up to b2 at 4 + 6i + 5, each under the tag of its role. */
  method LoadBucketSets(store: seq<Layout.Matrix>, tag: Layout.Role -> string)
    returns (w0: seq<Tensor>, w1: seq<Tensor>, w2: seq<Tensor>,
             c0: seq<Tensor>, c1: seq<Tensor>, c2: seq<Tensor>)
    requires Layout.STYLE_BASE <= |store|
    ensures |w0| == |w1| == |w2| == |c0| == |c1| == |c2| == Layout.BUCKETS
    ensures forall i :: 0 <= i < Layout.BUCKETS ==>
      w0[i] == LoadedTensor(store, tag, Layout.Bucket(Layout.W0, i)) &&
      w1[i] == LoadedTensor(store, tag, Layout.Bucket(Layout.W1, i)) &&
      w2[i] == LoadedTensor(store, tag, Layout.Bucket(Layout.W2, i)) &&
      c0[i] == LoadedTensor(store, tag, Layout.Bucket(Layout.B0, i)) &&
      c1[i] == LoadedTensor(store, tag, Layout.Bucket(Layout.B1, i)) &&
      c2[i] == LoadedTensor(store, tag, Layout.Bucket(Layout.B2, i))
  {
    w0 := LoadBucketSet(store, tag, Layout.W0);
    w1 := LoadBucketSet(store, tag, Layout.W1);
    w2 := LoadBucketSet(store, tag, Layout.W2);
    c0 := LoadBucketSet(store, tag, Layout.B0);
    c1 := LoadBucketSet(store, tag, Layout.B1);
    c2 := LoadBucketSet(store, tag, Layout.B2);
  }

  /** One bucket parameter for every bucket: a fresh array whose entry i is made
      from store position 4 + 6i + `Layout.BucketOffset(p)`. */
  method LoadBucketSet(store: seq<Layout.Matrix>, tag: Layout.Role -> string, p: Layout.BucketParam)
    returns (t: seq<Tensor>)
    requires Layout.STYLE_BASE <= |store|
    ensures |t| == Layout.BUCKETS
    ensures forall i :: 0 <= i < Layout.BUCKETS ==> t[i] == LoadedTensor(store, tag, Layout.Bucket(p, i))
  {
    var a := new Tensor[Layout.BUCKETS];
    for i := 0 to Layout.BUCKETS
      invariant forall j :: 0 <= j < i ==> a[j] == LoadedTensor(store, tag, Layout.Bucket(p, j))
    {
      a[i] := CreateTensor(store[4 + i * 6 + Layout.BucketOffset(p)], tag(Layout.Bucket(p, i)));
    }
    t := a[..];
  }

  /** The style loop of `LoadParameters`: two fresh arrays of `sdim` tensors, entry
      i of SW made from store position 304 + 2i and of Sb from 304 + 2i + 1. */
  method LoadStyleSets(store: seq<Layout.Matrix>, sdim: nat, tag: Layout.Role -> string)
    returns (sw: seq<Tensor>, sb: seq<Tensor>)
    requires Layout.ParameterCount(sdim) <= |store|
    ensures |sw| == |sb| == sdim
    ensures forall i :: 0 <= i < sdim ==>
      sw[i] == LoadedTensor(store, tag, Layout.Style(Layout.SW, i)) &&
      sb[i] == LoadedTensor(store, tag, Layout.Style(Layout.Sb, i))
  {
    var aw := new Tensor[sdim];
    var ab := new Tensor[sdim];
    for i := 0 to sdim
      invariant forall j :: 0 <= j < i ==>
        aw[j] == LoadedTensor(store, tag, Layout.Style(Layout.SW, j)) &&
        ab[j] == LoadedTensor(store, tag, Layout.Style(Layout.Sb, j))
    {
      aw[i] := CreateTensor(store[4 + 50 * 6 + i * 2 + 0], tag(Layout.Style(Layout.SW, i)));
      ab[i] := CreateTensor(store[4 + 50 * 6 + i * 2 + 1], tag(Layout.Style(Layout.Sb, i)));
    }
    sw, sb := aw[..], ab[..];
  }

  /** Writes one record per role, in store order: the normalisation vectors, then
      the fifty buckets, then `sdim` style sets. */
  method StoreRecords<T>(e: Layout.Role -> T, sdim: nat) returns (store: seq<T>)
    ensures store == Layout.StoreOrder(e, sdim)
  {
    store := StoreNormalisation(e, []);
    store := StoreBuckets(e, store);
    store := StoreStyleSets(e, store, sdim);
    assert [] + Layout.NormBlock(e) == Layout.NormBlock(e);
  }

  /** Appends the records of the four normalisation vectors. */
  method StoreNormalisation<T>(e: Layout.Role -> T, store: seq<T>) returns (out: seq<T>)
    ensures out == store + Layout.NormBlock(e)
  {
    out := store + [e(Layout.Norm(Layout.Xmean)), e(Layout.Norm(Layout.Xstd)),
                    e(Layout.Norm(Layout.Ymean)), e(Layout.Norm(Layout.Ystd))];
  }

  /** Appends the records of the fifty buckets, six per bucket, bucket by bucket. */
  method StoreBuckets<T>(e: Layout.Role -> T, store: seq<T>) returns (out: seq<T>)
    ensures out == store + Layout.BucketBlocks(e, Layout.BUCKETS)
  {
    out := store;
    var i := 0;
    while i < Layout.BUCKETS
      invariant 0 <= i <= Layout.BUCKETS
      invariant out == store + Layout.BucketBlocks(e, i)
    {
      out := out + [e(Layout.Bucket(Layout.W0, i)), e(Layout.Bucket(Layout.W1, i)), e(Layout.Bucket(Layout.W2, i)),
                    e(Layout.Bucket(Layout.B0, i)), e(Layout.Bucket(Layout.B1, i)), e(Layout.Bucket(Layout.B2, i))];
      AppendAssoc(store, Layout.BucketBlocks(e, i), Layout.BucketBlock(e, i));
      i := i + 1;
    }
  }

  /** Appends the records of the first n style sets, two per set, set by set. */
  method StoreStyleSets<T>(e: Layout.Role -> T, store: seq<T>, n: nat) returns (out: seq<T>)
    ensures out == store + Layout.StyleBlocks(e, n)
  {
    out := store;
    var i := 0;
    while i < n
      invariant 0 <= i <= n
      invariant out == store + Layout.StyleBlocks(e, i)
    {
      out := out + [e(Layout.Style(Layout.SW, i)), e(Layout.Style(Layout.Sb, i))];
      AppendAssoc(store, Layout.StyleBlocks(e, i), Layout.StyleBlock(e, i));
      i := i + 1;
    }
  }

  lemma AppendAssoc<T>(a: seq<T>, b: seq<T>, c: seq<T>)
    ensures a + b + c == a + (b + c)
  {
  }
}
