# SPFNN inference engine — a Dafny model

This project models the `SPFNN` engine of AI4Animation: a phase-functioned neural
network. It has fifty phase buckets of weights (`W0`, `W1`, `W2`, `b0`, `b1`, `b2`)
and a style layer. The style layer is blended, for every prediction, from `SDim`
style weight sets (`SW`, `Sb`), weighted by style values read from the input.

The engine does four things, and the model covers each:

- **Storing.** `StoreParameters` writes one ordered store of named, shaped
  matrices. Layout (`layout.dfy`) gives that order (`StoreLayout`), each
  role's file name (`StoreName`) and each role's shape (`Shape`). It proves:
  - the store holds `304 + 2*SDim` matrices;
  - every file name is distinct and reads back as its role. Bucket indices are
    zero-padded to three digits (`Naming.ZeroPadded`); style indices are not
    (`Naming.Decimal`).
- **Loading.** `LoadParameters` reads the store back by position.
  - `LoadIndex` is a bijection between the roles and `[0, 304 + 2*SDim)`.
  - The matrix at `LoadIndex(r)` is the one `StoreParameters` wrote for role `r`.
  - The engine class (`spfnn.dfy`) proves that after loading every tensor field
    holds the matrix of its role.
  - The buckets have length 50, the style sets have length `SDim`, the working
    tensors are created (taken to be zero-filled), and phase and damping are 0.
  - Without a store nothing changes.
- **Predicting.** `Predict` is specified against ghost functions of the state
  before the call:
  - the style values are `X[StyleNeurons[i]]`;
  - `WS` and `bS` are zeroed and then blended, so each cell is the weighted sum
    `S[0]*SW[0][r,c] + ... + S[SDim-1]*SW[SDim-1][r,c]`;
  - `Y` is the network pass through the bucket the phase selects;
  - the phase advances by `(1 - Damping) * output * 2pi`, wrapped into `[0, 2pi)`
    (module `PhaseCycle`). With damping 1 it does not move.
- **Accessors.** `SetInput`, `GetOutput`, `SetDamping` and `GetPhase` are the small
  accessors.

## Modelling choices

- **Reals.** Numbers are `real`. `M_PI` and `Mathf.PI` are one constant, `PI`.
  `Mathf.Repeat` is an exact real modulo. The `(int)` cast is truncation toward zero.
- **The base class.**
  - `Normalise`, `Layer`, `ELU` and `Renormalise` belong to the engine's base class.
    `Normalise`, `Layer` and `Renormalise` are kernel functions supplied by a
    `Kernels` value, with only the shape and the destination of each result fixed
    (module `Network`).
  - `ELU` is taken to be the exponential linear unit `x > 0 ? x : exp(x) - 1`,
    applied to every cell in place; only `exp` is a kernel. This is an
    assumption of the model.
  - `Blend(acc, M, s)` is also defined in the base class. It is taken to be the
    scaled accumulate `acc += s * M`. This is an assumption of the model.
- **Tensors** are values (module `Tensors`), held by the engine in `Option` fields
  (`None` = null). After loading, the bucket and style arrays are held as
  `seq<Tensor>`. They are filled through fresh local arrays in loops, as in the
  source, and then taken as sequences.
- **Reading the parameter files** (`Parameters.Store` reading `rows*cols` floats
  from a file) is a function parameter `read(fileName, j)`.
  `Parameters.Load(k)` is `store[k]`.
- **Predict's order.** `Predict` is split into three steps:
  - `BlendStyleLayer`, the style layer;
  - `Infer`, the network pass;
  - `UpdatePhase`, the phase update.

  The source blends the style layer after the three bucket layers. Those layers
  neither read nor write `WS`/`bS`. The blend reads `X` (through the style values),
  `SW`, `Sb`, `WS` and `bS`, and the bucket layers write none of them. Running the blend first therefore gives the same state.

## Model

The functions that encode the source's expressions have no row of their own; the lemma rows below state their properties:
- `Layout.LoadIndex` (SPFNN.cs:62-86): `LoadIndexInverse`, `RoleAtInverse`, `LoadIndexInjective`.
- `Layout.Shape`, `Layout.Stem` and `Layout.StoreName` (SPFNN.cs:38-52): `Entry`, `StemRoundTrip`, `NameRoundTrip`, `StoreNameInjective` and the three `...FileNames` lemmas.
- `Layout.Tag` (SPFNN.cs:62-85): `ParamsLoaded`, `LoadBucketSets`, `LoadStyleSets`.
- `PhaseCycle.BucketIndex` (SPFNN.cs:115): `BucketIndexInRange`, `BucketIndexSelects`.
- `PhaseCycle.Repeat` and `PhaseCycle.Advance` (SPFNN.cs:133): the `Repeat...` and `Advance...` lemmas.

| member | source | states |
|---|---|---|
| Layout.LoadIndexInverse | AI4Animation/Assets/Scripts/DeepLearning/Models/SPFNN.cs:62-86 | every role of a network with `sdim` styles is loaded from a position below `304 + 2*sdim`, and `RoleAt` recovers the role from that position |
| Layout.RoleAtInverse | AI4Animation/Assets/Scripts/DeepLearning/Models/SPFNN.cs:62-86 | every store position below `304 + 2*sdim` is read by the load of exactly the role `RoleAt` names: no gaps |
| Layout.LoadIndexInjective | AI4Animation/Assets/Scripts/DeepLearning/Models/SPFNN.cs:62-86 | two roles loaded from the same position are the same role: no position is read twice |
| Layout.StemRoundTrip | AI4Animation/Assets/Scripts/DeepLearning/Models/SPFNN.cs:38-52 | every file stem (`Xmean`, `W0_007`, `cp3_a12`, ...) parses back to the role it was made for |
| Layout.NameRoundTrip | AI4Animation/Assets/Scripts/DeepLearning/Models/SPFNN.cs:38-52 | every stored file name `<folder>/<stem>.bin` parses back to its role |
| Layout.StoreNameInjective | AI4Animation/Assets/Scripts/DeepLearning/Models/SPFNN.cs:38-52 | different roles are stored under different file names |
| Layout.NormFileNames | AI4Animation/Assets/Scripts/DeepLearning/Models/SPFNN.cs:38-41 | the normalisation vectors are stored from `<folder>/Xmean.bin`, `Xstd.bin`, `Ymean.bin`, `Ystd.bin` |
| Layout.BucketFileNames | AI4Animation/Assets/Scripts/DeepLearning/Models/SPFNN.cs:43-48 | bucket i's six matrices are stored from `W0_`, `W1_`, `W2_`, `b0_`, `b1_`, `b2_` followed by i in `D3` form |
| Layout.StyleFileNames | AI4Animation/Assets/Scripts/DeepLearning/Models/SPFNN.cs:51-52 | style set i is stored from `cp3_a<i>.bin` and `cp3_b<i>.bin`, i unpadded |
| Layout.Record | AI4Animation/Assets/Scripts/DeepLearning/Models/SPFNN.cs:38 | a stored record of shape `rows x cols` holds exactly `rows*cols` values |
| Layout.Entry | AI4Animation/Assets/Scripts/DeepLearning/Models/SPFNN.cs:38-52 | the record of role r carries r's file name and r's shape (`XDim x 1`, `HDim x XDim`, `YDim x YDim`, ...) with one value per cell |
| Layout.StoreOrderStyleStep | AI4Animation/Assets/Scripts/DeepLearning/Models/SPFNN.cs:50-53 | each further style set appends its two records at the end of the store |
| Layout.BucketBlocksLength | AI4Animation/Assets/Scripts/DeepLearning/Models/SPFNN.cs:42-49 | n buckets write 6n records |
| Layout.BucketBlocksAt | AI4Animation/Assets/Scripts/DeepLearning/Models/SPFNN.cs:42-49 | among the bucket records, the record of parameter p of bucket i is at `6i + offset(p)` |
| Layout.StyleBlocksLength | AI4Animation/Assets/Scripts/DeepLearning/Models/SPFNN.cs:50-53 | n style sets write 2n records |
| Layout.StyleBlocksAt | AI4Animation/Assets/Scripts/DeepLearning/Models/SPFNN.cs:50-53 | among the style records, the record of `SW`/`Sb` of set i is at `2i` / `2i + 1` |
| Layout.StoreOrderAt | AI4Animation/Assets/Scripts/DeepLearning/Models/SPFNN.cs:38-86 | the store has `304 + 2*sdim` entries and the entry at the position the loader reads for role r is the one written for r |
| Layout.StoreLayoutAt | AI4Animation/Assets/Scripts/DeepLearning/Models/SPFNN.cs:38-86 | store/load round trip: the matrix at `LoadIndex(r)` is r's record, with r's file name, r's shape and `rows*cols` values |
| Layout.StoreNamesDistinct | AI4Animation/Assets/Scripts/DeepLearning/Models/SPFNN.cs:38-52 | no two matrices of the store share a file name |
| Layout.StoreLayoutAgrees | AI4Animation/Assets/Scripts/DeepLearning/Models/SPFNN.cs:38-52 | a store written by `StoreParameters` has, at every role's load position, a well-formed matrix of that role's shape |
| Naming.Decimal | AI4Animation/Assets/Scripts/DeepLearning/Models/SPFNN.cs:51-52 | `i.ToString()` is a non-empty, unpadded digit string: it starts with `0` only when i is 0, and has one digit exactly when i < 10 |
| Naming.ZeroPadded | AI4Animation/Assets/Scripts/DeepLearning/Models/SPFNN.cs:43-48 | `i.ToString("D3")` is a digit string at least three long |
| Naming.DecimalRoundTrip | AI4Animation/Assets/Scripts/DeepLearning/Models/SPFNN.cs:51-52 | reading back the decimal form of i gives i |
| Naming.ZeroPaddedRoundTrip | AI4Animation/Assets/Scripts/DeepLearning/Models/SPFNN.cs:43-48 | reading back the zero-padded form of i gives i, whatever the width |
| Naming.ZeroPaddedWidth3 | AI4Animation/Assets/Scripts/DeepLearning/Models/SPFNN.cs:42-48 | every bucket index (below 1000) is written with exactly three digits |
| Network.Normalise | AI4Animation/Assets/Scripts/DeepLearning/Models/SPFNN.cs:112 | `Normalise(X, Xmean, Xstd, Y)` writes a result of X's shape into Y |
| Network.Layer | AI4Animation/Assets/Scripts/DeepLearning/Models/SPFNN.cs:116-127 | `Layer(x, W, b, y)` writes a `W.rows x x.cols` result into y |
| Network.ELU | AI4Animation/Assets/Scripts/DeepLearning/Models/SPFNN.cs:116-118 | `ELU` works in place and keeps the shape |
| Network.Renormalise | AI4Animation/Assets/Scripts/DeepLearning/Models/SPFNN.cs:130 | `Renormalise(Y, Ymean, Ystd, Y)` writes a result of Y's shape into Y |
| Network.EluCells | AI4Animation/Assets/Scripts/DeepLearning/Models/SPFNN.cs:116-118 | ELU acts cell by cell and leaves positive entries unchanged |
| PhaseCycle.BucketIndexInRange | AI4Animation/Assets/Scripts/DeepLearning/Models/SPFNN.cs:115 | a phase in `[0, 2pi)` selects a bucket index in `[0, 49]` |
| PhaseCycle.BucketIndexSelects | AI4Animation/Assets/Scripts/DeepLearning/Models/SPFNN.cs:115 | a non-negative phase selects bucket k exactly when it lies in the k-th fiftieth of the cycle (both directions) |
| PhaseCycle.RepeatInRange | AI4Animation/Assets/Scripts/DeepLearning/Models/SPFNN.cs:133 | `Mathf.Repeat(t, L)` lies in `[0, L)` for every t, negative included |
| PhaseCycle.RepeatIdentity | AI4Animation/Assets/Scripts/DeepLearning/Models/SPFNN.cs:133 | `Mathf.Repeat` leaves a value already in `[0, L)` unchanged |
| PhaseCycle.RepeatPeriodic | AI4Animation/Assets/Scripts/DeepLearning/Models/SPFNN.cs:133 | adding whole cycles does not change where a value wraps to |
| PhaseCycle.AdvanceInRange | AI4Animation/Assets/Scripts/DeepLearning/Models/SPFNN.cs:133 | the updated phase always lies in `[0, 2pi)` |
| PhaseCycle.AdvanceFullDamping | AI4Animation/Assets/Scripts/DeepLearning/Models/SPFNN.cs:133 | with damping 1 the phase does not move, whatever the output |
| PhaseCycle.AdvanceUndamped | AI4Animation/Assets/Scripts/DeepLearning/Models/SPFNN.cs:133 | with damping 0 the phase moves on by `output * 2pi`, modulo whole cycles |
| PhaseCycle.PhaseAfterInRange | AI4Animation/Assets/Scripts/DeepLearning/Models/SPFNN.cs:133 | over any run of predictions the phase stays in `[0, 2pi)` |
| PhaseCycle.PhaseAfterFullDamping | AI4Animation/Assets/Scripts/DeepLearning/Models/SPFNN.cs:133 | with damping 1 the phase never changes over any run of predictions |
| Tensors.Create | AI4Animation/Assets/Scripts/DeepLearning/Models/SPFNN.cs:87-91 | `CreateTensor(rows, cols, id)` is a `rows x cols` tensor under id with every cell 0 (zero fill assumed of the base class) |
| Tensors.Set | AI4Animation/Assets/Scripts/DeepLearning/Models/SPFNN.cs:98 | `SetValue(r, c, v)`: cell (r, c) reads back v, every other cell and the shape are kept |
| Tensors.Zeroed | AI4Animation/Assets/Scripts/DeepLearning/Models/SPFNN.cs:121-122 | `SetZero` keeps shape and id and makes every cell 0 |
| Tensors.Get | AI4Animation/Assets/Scripts/DeepLearning/Models/SPFNN.cs:102 | `GetValue(r, c)` on a well-formed tensor reads the buffer at the row-major position `r * cols + c`, which lies inside the buffer |
| Tensors.Blend | AI4Animation/Assets/Scripts/DeepLearning/Models/SPFNN.cs:124-125 | `Blend(acc, M, s)`: every cell becomes `acc[r,c] + s*M[r,c]`, shape and id kept |
| StyleLayer.Accumulate | AI4Animation/Assets/Scripts/DeepLearning/Models/SPFNN.cs:123-126 | blending n style sets in turn keeps the accumulator's shape and id |
| StyleLayer.AccumulateCell | AI4Animation/Assets/Scripts/DeepLearning/Models/SPFNN.cs:123-126 | after the blend loop each cell is its start value plus the weighted sum of that cell over the style sets |
| StyleLayer.BlendFromZero | AI4Animation/Assets/Scripts/DeepLearning/Models/SPFNN.cs:121-126 | after zeroing and blending, each cell is exactly the weighted sum: nothing of the previous contents survives |
| StyleLayer.BlendSingleUnit | AI4Animation/Assets/Scripts/DeepLearning/Models/SPFNN.cs:121-126 | one style set with style value 1 reproduces that set |
| StyleLayer.BlendAllZero | AI4Animation/Assets/Scripts/DeepLearning/Models/SPFNN.cs:121-126 | all style values 0 give the zero tensor |
| Spfnn.SPFNN.constructor | AI4Animation/Assets/Scripts/DeepLearning/Models/SPFNN.cs:11-34 | a new engine has its configuration, no store, no tensors, phase and damping 0 |
| Spfnn.SPFNN.StoreParameters | AI4Animation/Assets/Scripts/DeepLearning/Models/SPFNN.cs:36-54 | the store becomes exactly `StoreLayout(Folder, dims, read)`, the records in the order the loader reads them |
| Spfnn.StoreRecords | AI4Animation/Assets/Scripts/DeepLearning/Models/SPFNN.cs:37-53 | the three append phases together write `StoreOrder`: norms, buckets, styles |
| Spfnn.StoreNormalisation | AI4Animation/Assets/Scripts/DeepLearning/Models/SPFNN.cs:38-41 | appends the four normalisation records in order `Xmean`, `Xstd`, `Ymean`, `Ystd` |
| Spfnn.StoreBuckets | AI4Animation/Assets/Scripts/DeepLearning/Models/SPFNN.cs:42-49 | the bucket loop appends the six records of buckets 0..49 in order |
| Spfnn.StoreStyleSets | AI4Animation/Assets/Scripts/DeepLearning/Models/SPFNN.cs:50-53 | the style loop appends `cp3_a<i>`, `cp3_b<i>` for i = 0..SDim-1 in order |
| Spfnn.SPFNN.LoadParameters | AI4Animation/Assets/Scripts/DeepLearning/Models/SPFNN.cs:56-95 | without a store nothing changes; otherwise every tensor field holds its role's matrix from the store, the working tensors are zeroed and phase and damping are 0 |
| Spfnn.SPFNN.Load | AI4Animation/Assets/Scripts/DeepLearning/Models/SPFNN.cs:62-94 | the loaded state: parameters from the store and a fresh working state |
| Spfnn.SPFNN.LoadTensors | AI4Animation/Assets/Scripts/DeepLearning/Models/SPFNN.cs:62-86 | every parameter field is built from the store at its role's position |
| Spfnn.SPFNN.LoadNormalisation | AI4Animation/Assets/Scripts/DeepLearning/Models/SPFNN.cs:62-65 | `Xmean`, `Xstd`, `Ymean`, `Ystd` come from store positions 0..3 |
| Spfnn.SPFNN.LoadBuckets | AI4Animation/Assets/Scripts/DeepLearning/Models/SPFNN.cs:67-80 | the six bucket arrays have length 50, entry i of each made from position `4 + 6i + k` |
| Spfnn.SPFNN.LoadStyles | AI4Animation/Assets/Scripts/DeepLearning/Models/SPFNN.cs:81-86 | `SW`, `Sb` have length `SDim`, entry i made from positions `304 + 2i` and `305 + 2i` |
| Spfnn.LoadBucketSets | AI4Animation/Assets/Scripts/DeepLearning/Models/SPFNN.cs:67-80 | six arrays of 50 tensors, entry i of W0 from position `4 + 6i`, ..., of b2 from `4 + 6i + 5`, with tags `W0<i>` ... |
| Spfnn.LoadBucketSet | AI4Animation/Assets/Scripts/DeepLearning/Models/SPFNN.cs:73-80 | the bucket loop fills all 50 entries of one parameter's array from its positions |
| Spfnn.LoadStyleSets | AI4Animation/Assets/Scripts/DeepLearning/Models/SPFNN.cs:81-86 | the style loop fills `SDim` entries of `SW` and `Sb` from positions `304 + 2i`, `305 + 2i` |
| Spfnn.CreateTensor | AI4Animation/Assets/Scripts/DeepLearning/Models/SPFNN.cs:62-85 | `CreateTensor(matrix, tag)` is a tensor under tag with the matrix's shape and values; it is well-formed exactly when the matrix holds `rows*cols` values |
| Spfnn.SPFNN.Reset | AI4Animation/Assets/Scripts/DeepLearning/Models/SPFNN.cs:87-94 | `WS` is `YDim x YDim`, `bS` and `Y` are `YDim x 1`, `X` is `XDim x 1`, all zero; phase and damping 0 |
| Spfnn.SPFNN.ParamsLoaded | AI4Animation/Assets/Scripts/DeepLearning/Models/SPFNN.cs:62-86 | after loading, every tensor exists and the tensor of each role r is the store's matrix at `LoadIndex(r)` under r's tag |
| Spfnn.SPFNN.ShapesLoaded | AI4Animation/Assets/Scripts/DeepLearning/Models/SPFNN.cs:62-86 | loaded from a store that agrees with the dimensions, every tensor has its role's shape |
| Spfnn.LoadedShape | AI4Animation/Assets/Scripts/DeepLearning/Models/SPFNN.cs:62-86 | a store that agrees with the dimensions yields a well-formed tensor of the role's shape for every role |
| Spfnn.SPFNN.ReadyLoaded | AI4Animation/Assets/Scripts/DeepLearning/Models/SPFNN.cs:56-95 | after loading a store that agrees with the dimensions, with style neurons and phase index in range, the engine can predict and its phase is in one cycle |
| Spfnn.SPFNN.StoredThenLoaded | AI4Animation/Assets/Scripts/DeepLearning/Models/SPFNN.cs:36-95 | after `StoreParameters(read)` and `LoadParameters()`, every role's tensor is `CreateTensor` of the record `StoreParameters` wrote for that role, under its tag; with a consistent configuration the engine can predict |
| Spfnn.SPFNN.SetInput | AI4Animation/Assets/Scripts/DeepLearning/Models/SPFNN.cs:97-99 | input entry `index` becomes value, every other entry and the shape are kept, readiness is kept |
| Spfnn.SPFNN.GetOutput | AI4Animation/Assets/Scripts/DeepLearning/Models/SPFNN.cs:101-103 | the value of output row `index`, column 0: the entry `index * cols` of Y's buffer, entry `index` for a column vector |
| Spfnn.SPFNN.SetDamping | AI4Animation/Assets/Scripts/DeepLearning/Models/SPFNN.cs:150-152 | the damping becomes value and nothing else changes |
| Spfnn.SPFNN.GetPhase | AI4Animation/Assets/Scripts/DeepLearning/Models/SPFNN.cs:154-156 | the current phase; it reads only the phase and changes nothing |
| Spfnn.SPFNN.Styles | AI4Animation/Assets/Scripts/DeepLearning/Models/SPFNN.cs:106-109 | one style value per style dimension |
| Spfnn.StyleValues | AI4Animation/Assets/Scripts/DeepLearning/Models/SPFNN.cs:106-109 | style value i is input entry `StyleNeurons[i]` |
| Spfnn.ReadStyles | AI4Animation/Assets/Scripts/DeepLearning/Models/SPFNN.cs:106-109 | the loop into a new array `S` yields exactly the style values |
| Spfnn.BlendStyles | AI4Animation/Assets/Scripts/DeepLearning/Models/SPFNN.cs:121-126 | the zero-and-blend loop gives `WS`, `bS` whose every cell is the weighted sum of that cell over the style sets |
| Spfnn.SPFNN.BlendedWS | AI4Animation/Assets/Scripts/DeepLearning/Models/SPFNN.cs:121-126 | the blended style weights are `YDim x YDim` under WS's id |
| Spfnn.SPFNN.BlendedBS | AI4Animation/Assets/Scripts/DeepLearning/Models/SPFNN.cs:121-126 | the blended style bias is `YDim x 1` under bS's id |
| Spfnn.SPFNN.BlendedCells | AI4Animation/Assets/Scripts/DeepLearning/Models/SPFNN.cs:121-126 | each cell of the blended `WS` and `bS` is the weighted sum `S[0]*SW[0][r,c] + ... + S[SDim-1]*SW[SDim-1][r,c]` |
| Spfnn.Propagate | AI4Animation/Assets/Scripts/DeepLearning/Models/SPFNN.cs:111-130 | the network pass yields a result with one row per row of the style weights and the input's columns, written into Y |
| Spfnn.SPFNN.Pass | AI4Animation/Assets/Scripts/DeepLearning/Models/SPFNN.cs:115-130 | the pass through the bucket the phase selects keeps Y's identity and has the style layer's row count |
| Spfnn.SPFNN.Forward | AI4Animation/Assets/Scripts/DeepLearning/Models/SPFNN.cs:111-130 | the prediction's output is a `YDim x 1` tensor written into Y |
| Spfnn.SPFNN.Predict | AI4Animation/Assets/Scripts/DeepLearning/Models/SPFNN.cs:105-134 | Y is the forward pass of the state before the call; WS, bS are the blended style layer; the phase advances by the damped phase output and stays in `[0, 2pi)`; damping 1 keeps the phase; only Y, WS, bS and Phase change (damping never) and the engine stays ready |
| Spfnn.SPFNN.BlendStyleLayer | AI4Animation/Assets/Scripts/DeepLearning/Models/SPFNN.cs:106-126 | WS, bS become the style sets blended by the style values; the engine stays ready |
| Spfnn.SPFNN.Infer | AI4Animation/Assets/Scripts/DeepLearning/Models/SPFNN.cs:111-130 | Y becomes the network pass of the current input through the phase's bucket and the current style layer |
| Spfnn.SPFNN.UpdatePhase | AI4Animation/Assets/Scripts/DeepLearning/Models/SPFNN.cs:133 | the phase becomes `Repeat(Phase + (1 - Damping) * Y[PhaseIndex] * 2pi, 2pi)`, inside one cycle; unchanged under full damping |

## Left out

- The Unity editor `Inspector` is left out: it is GUI only.
- Creating the `ScriptableObject`, reading the `.bin` files and `Debug.Log` are I/O. File contents are the parameter `read`; the log message is dropped.
- A `Tensor` is modelled as a row-major buffer of reals with a shape and an id, read and written through get, set and set-zero (module `Tensors`). The base class's own tensor implementation is not part of this model.
- The internals of `Normalise`, `Layer`, `ELU`'s `exp` and `Renormalise` are not modelled. They live outside the engine's file, so their values are uninterpreted kernels.
- Network.ELU: the exponential linear unit `x > 0 ? x : exp(x) - 1`, applied cell by cell in place, is assumed, not derived. `ELU` is defined in the base class, which is not part of this model; `exp` itself stays a kernel. `Network.EluCells` rests on this assumption.
- `Blend` is assumed to be `acc += s * M`, not derived: it is defined in the base class, which is not part of this model.
- Single-precision rounding is not modelled. Numbers are reals, so a float phase that rounds up to `2pi` (bucket index 50) is not captured either way.
- The commented-out `Linear`/`Cubic` interpolation helpers are dead code and are left out.
- Negative dimensions and C# integer overflow are not modelled. Dimensions are `nat`, and no index expression comes near 32 bits.
- Identity and aliasing of the tensor arrays are not modelled. The arrays are filled in place, then held as `seq<Tensor>` fields, and tensors are values. Nothing in the engine shares them.
- Spfnn.SPFNN.LoadParameters: it requires that a present store holds `304 + 2*SDim` matrices. What `Parameters.Load(k)` does past the end of the store is outside the engine's file.
- Spfnn.SPFNN.LoadParameters: its postcondition states the loaded state (`Initialised`). Readiness to predict, which follows when the store agrees with the dimensions, is stated by the lemmas `ReadyLoaded` and `StoredThenLoaded` rather than as a clause of the method.
- Tensors.Create: `CreateTensor(rows, cols, id)` is assumed to fill every cell with 0. It is defined in the base class, which is not part of this model, so the zeroed working tensors after loading rest on this assumption.
- Spfnn.CreateTensor: it is assumed to copy the matrix's shape and values under the tag. `CreateTensor` is defined in the base class, which is not part of this model.
- Spfnn.SPFNN.SetInput: it requires a loaded `X` and an index in range. The source's null-reference failure and out-of-range behaviour are not modelled.
- Spfnn.SPFNN.GetOutput: it requires a loaded `Y` and an index in range, as the phase update's use of it guarantees. The source's failure otherwise is not modelled.
- Spfnn.SPFNN.Predict: it requires `Ready()` and a phase inside one cycle. What the source does when one of these fails is not modelled. `Ready()` demands each of the following:
  - the engine is loaded: every tensor field is present. Otherwise the source fails on a null tensor.
  - `ShapesAgree`: every loaded tensor has its role's shape. Otherwise the outcome depends on the base class's kernels on mismatched shapes.
  - `SDim <= |StyleNeurons|`, with each of the first `SDim` style neurons below `XDim`. Otherwise the source indexes `StyleNeurons` or `X` out of range.
  - `PhaseIndex < YDim`. Otherwise the source reads `Y` out of range.
  - `X`, `Y`, `WS` and `bS` have the shapes `Reset` gives them.
