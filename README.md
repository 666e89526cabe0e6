# A verified model of a small neural-network library

The library is a Java machine-learning toolkit that exists in two near-duplicate
snapshots: the default package (`src/main/java/*.java`) and the `com.jace`
packages. This project models the core of both:

- **Windowed vectors and tensors.** A `Vector` is a window `(vals, start, len)` over a
  shared array. Views alias their parent. A `Tensor` is a vector seen through a list of
  dimensions, with the first dimension varying fastest. Both tensor classes share one
  N-dimensional convolution kernel. It centres the filter with computed padding, may
  flip the filter, and adds into its output. `convolvePerFilter` and
  `convolvePerLayer` work slice by slice along the last dimension.
- **Tables.** `Matrix` is a list of row arrays plus column metadata. The model
  covers serialisation both ways, block copies, multiplication with transpose flags,
  transposition, row and column swaps, one-hot encoding, column statistics and the
  cross-validation fold split. `WeightUtils` packs a bias followed by a row-major
  weight matrix into one flat vector. `Metadata` keeps each column's enumeration as
  a pair of inverse maps.
- **Layers.**
  - The linear layers compute `W·x + b`, hand back `Wᵀ·blame`, and accumulate outer
    products, with optional L1 or L2 penalties.
  - The convolution layer adds one bias per last-dimension slice. Its bias gradient is
    *set* from the blame's slices. As written, each entry gets `reduce()` of a slice view,
    which sums the whole blame. The model sets each entry to its own slice's sum, as the
    layer's test expects, and keeps the as-written loop beside it (see "## Findings").
  - 2×2 max pooling keeps the first maximum and routes blame only to the winner.
  - The leaky rectifier has slope 0.01. `tanh` has the backward rule `blame·(1 − a²)`.
  - The connected layers' update is `w += rate·g; g *= momentum`.
- **Networks.**
  - `predict` feeds activations forward.
  - `backPropagate` seeds the last blame with `target − activation` and hands blame
    down in reverse order.
  - `updateGradient` feeds the inputs forward again.
  - The root network builds layers so that each one's inputs are its predecessor's
    outputs.
- **`Strings.join`.**

Every `double` is a Dafny `real`. Java exceptions are values: `Result`, and `Outcome`
for methods returning nothing. Each carries an `Error` with the kind and message
that the source throws. Objects whose fields the source updates in place are classes:
vectors over arrays, tensors, matrices, metadata, layers and networks. Their methods
are proved against specification functions over sequences. The loops of the
convolution kernel, the matrix operations, pooling and the network passes are `while`
loops with invariants. The proofs about the specification functions are lemmas:
- flat-index injectivity;
- serialisation round trips;
- fold sizes summing to the row count;
- the adjoint property of the linear layer;
- blame conservation in pooling;
- whether the network passes can throw.

The root-package layers call methods that the root `Layer` and `Vector` lack
(`getBlame`, `asMatrix`, `map`). Root `NeuralNetwork.backPropagate` calls
`target.copy()` and `blame.addScaled(activation, -1)`, but the root `Vector` has only a
static `copy(Vector)` and `addScaled(double, Vector)`; the model reads them as those two,
so the output blame is the target minus the last activation. Four more calls have no
matching root method or field, and the model reads each as follows:
- `applyGradient` of root `ConnectedLayer` (ConnectedLayer.java:37-38) and `LayerLinear`
  (LayerLinear.java:151-152) calls `addScaled(gradient, learningRate)`. Root `Vector` has only
  `addScaled(double, Vector)`. The call is read as `addScaled(learningRate, gradient)`, so each
  parameter moves by `learningRate` times its gradient
  (`ConvolutionLayers.ConvolutionLayer.ApplyGradient`, the linear layers' `ApplyGradient`).
- `fillAll` (ConnectedLayer.java:26-27, LayerLinear.java:45-46) calls `fill(supplier)`. Root
  `Vector` has only `fill(double)`. The call is read as one draw per entry, in order: the
  weights first, then the bias (`FillAll`).
- `addBiasesByLastDimension` (ConvolutionLayer.java:115) calls `addScalar`, which no class
  defines. It is read as adding the scalar to every element of the slice
  (`ConvolutionLayers.Shifted`).
- `setColumn(int, Vector)` (Matrix.java:361-363) reads a field `values`. Root `Vector` names it
  `vals`. The column case of `Matrices.Matrix.FromVector` reads it as the vector's window, so
  a view of a larger array gives only its own elements.

The root convolution and pooling layers call the
`com.jace` tensor API (`asTensor`, `splitByLastDimension`, three-argument
`convolve`). So all layers share one layer base (module `Layers`) and the `com.jace`
tensor model. `tanh` is a function supplied to the layer. The regularisation loop of
the `com.jace` linear layer runs for `i < size − 1`. It is modelled as written, so the
last weight of the matrix is never penalised.

Module map, one file per module:

- wrappers.dfy (`Wrappers`): exceptions as `Result`/`Outcome` values
- numeric.dfy (`Numeric`): sums, dot products, elementwise operations
- indexing.dfy (`Indexing`): element counts, strides, flat index and its inverse
- vector.dfy (`Vectors`): `Vector.java`
- convolution.dfy (`Convolution`): the shared convolution loop nest
- tensor.dfy (`Tensors`): `com/jace/math/Tensor.java`
- roottensor.dfy (`RootTensors`): `Tensor.java`
- grids.dfy, matrix.dfy, columnstats.dfy, folds.dfy (`Grids`, `Matrices`, `ColumnStats`, `Folds`): `Matrix.java`
- metadata.dfy, formatting.dfy (`ColumnMetadata`, `Formatting`): `com/jace/math/Metadata.java`
- weightutils.dfy (`WeightUtils`): `WeightUtils.java`
- strings.dfy (`Strings`): `com/jace/util/Strings.java`
- layer.dfy (`Layers`): `com/jace/layer/Layer.java`
- dense.dfy, linear.dfy (`Dense`, `LinearLayers`): `com/jace/layer/ConnectedLayer.java`, `com/jace/layer/LinearLayer.java`, `LayerLinear.java`
- activation.dfy (`Activations`): the leaky-rectifier and tanh layers of both snapshots
- convlayer.dfy (`ConvolutionLayers`): `ConvolutionLayer.java` with the root `ConnectedLayer.java` it extends
- pooling.dfy (`Pooling`): `MaxPooling2DLayer.java`
- networks.dfy, jacenetwork.dfy, rootnetwork.dfy (`Networks`, `JaceNetworks`, `RootNetworks`): both `NeuralNetwork.java`
- fixtures.dfy (`Fixtures`): the `test1D`/`test2D` self-tests of both tensor classes

## Model

| member | source | states |
|---|---|---|
| Vectors.Vector.Make | src/main/java/Vector.java:20-28 | `new Vector(size)` is a fresh window over `size` zeros starting at 0; size 0 leaves the buffer null |
| Vectors.Vector.Wrap | src/main/java/Vector.java:30-35 | `new Vector(double[])` wraps the caller's array itself, whole, from index 0 |
| Vectors.Vector.View | src/main/java/Vector.java:37-44 | the view constructor shares the parent's buffer: element `i` of the view is `vals[parent.start + begin + i]` |
| Vectors.Vector.Get | src/main/java/Vector.java:68-70 | `get(i)` reads the backing array at `start + i` |
| Vectors.Vector.Set | src/main/java/Vector.java:72-74 | `set(i, v)` changes exactly backing cell `start + i`, i.e. element `i` of the window |
| Vectors.Vector.Copy | src/main/java/Vector.java:14-18 | `copy` yields a fresh buffer with equal elements; an empty vector throws the `set` range error |
| Vectors.Vector.Fill | src/main/java/Vector.java:76-79 | `fill` overwrites exactly the window `[start, start+len)` with the value |
| Vectors.Vector.SquaredMagnitude | src/main/java/Vector.java:96-101 | the result is the dot product of the vector with itself |
| Vectors.Vector.Add | src/main/java/Vector.java:115-120 | sizes that differ throw before any write; over another array the window becomes the elementwise sum; over the same backing array the result is the step-by-step loop `AddedInPlace`; nothing outside the window changes |
| Vectors.Vector.SetFrom | src/main/java/Vector.java:122-132 | `set(startIndex, values)` throws for `startIndex` outside `[0, size)`; otherwise it writes the values from `startIndex`, clipped at the end of the window, and nothing else; a source sharing the backing array gives the step-by-step copy `CopiedInPlace` |
| Vectors.Vector.Scale | src/main/java/Vector.java:134-137 | the window is multiplied by the scalar and nothing outside it changes |
| Vectors.Vector.AddScaled | src/main/java/Vector.java:139-144 | sizes that differ throw before any write; otherwise `this[i] += s * that[i]` on the window only, each step reading `that` as earlier steps left it when the two share a backing array |
| Vectors.Vector.DotProduct | src/main/java/Vector.java:146-153 | sizes that differ throw; otherwise the result is `Σ this[i]·that[i]` |
| Vectors.Vector.SquaredDistance | src/main/java/Vector.java:155-164 | sizes that differ throw; otherwise the result is `Σ (this[i]-that[i])²`, never negative |
| Vectors.Vector.Reduce | src/main/java/Vector.java:166-172 | the sum of the WHOLE backing array, entries outside the window included; a null buffer throws |
| Vectors.Vector.ToDoubleArray | src/main/java/Vector.java:174-178 | a fresh array holding exactly the window's elements; a null buffer throws |
| Vectors.Vector.Equals | src/main/java/Vector.java:181-183 | `Arrays.equals` of the two backing arrays: both null, or the same length and the same element at every index; the windows play no part |
| Vectors.AddedInPlace | src/main/java/Vector.java:139-144 | the loop `a[dst+i] += s·a[src+i]` on one array keeps its length and changes only `[dst, dst+k)` |
| Vectors.AddWithin | src/main/java/Vector.java:139-144 | the in-place loop on one array leaves exactly `AddedInPlace` of the old contents |
| Vectors.AddedInPlaceForward | src/main/java/Vector.java:115-120 | when the source window does not start before the destination (or does not overlap it), each cell gets its old value plus `s` times the old source cell: the elementwise sum |
| Vectors.AddedInPlaceOverlap | src/main/java/Vector.java:115-120 | `w = [2,3]` viewing `v = [1,2,3]` from 1, `u = [1,2]` from 0: `w.add(u)` leaves `[1,3,6]`, not the elementwise `[1,3,5]` |
| Vectors.CopiedInPlace | src/main/java/Vector.java:122-131 | the copy loop `a[dst+i] = a[src+i]` on one array keeps its length and changes only `[dst, dst+k)` |
| Vectors.CopiedInPlaceForward | src/main/java/Vector.java:122-131 | when the source does not start before the destination (or does not overlap it), the in-place copy is the plain overwrite with the old source cells |
| Vectors.CopiedInPlaceRepeats | src/main/java/Vector.java:122-131 | when the source starts `p` cells before the destination, the copy repeats the first `p` source cells periodically |
| Vectors.CopiedInPlaceReads | src/main/java/Vector.java:122-131 | after the in-place copy loop, each destination cell holds the original source cell at the same offset when the destination starts no later than the source or the two ranges are disjoint, so the loop never reads a cell it already wrote |
| WeightUtils.MatrixOfAt | src/main/java/WeightUtils.java:7-10 | entry `(r, c)` of the weight part is the packed entry `outputs + r*inputs + c` |
| WeightUtils.ExtractBias | src/main/java/WeightUtils.java:3-5 | `extract_b` is a view of the first `outputs` entries that shares the packed storage |
| WeightUtils.ExtractWeights | src/main/java/WeightUtils.java:7-10 | `extract_M` is an `outputs×inputs` matrix whose rows are the packed entries after the bias, row by row; no column with rows throws |
| WeightUtils.SetBias | src/main/java/WeightUtils.java:12-14 | `set_b` writes the bias from index 0 through the clipped `Vector.set`: the whole backing array is the old one with the first `min(len, b.len)` bias entries written at the window start (the step-by-step copy when both share a backing array); an empty packed vector throws |
| WeightUtils.SetWeights | src/main/java/WeightUtils.java:16-19 | `set_M` writes the matrix row-major from index `M.rows()`, clipped at the end of the window, and the whole backing array is otherwise unchanged; an empty matrix or an index past the end throws |
| WeightUtils.MatrixWrittenThenRead | src/main/java/WeightUtils.java:7-19 | reading the weight part back after `set_M` gives the matrix, and the bias part is untouched |
| WeightUtils.BiasWrittenThenRead | src/main/java/WeightUtils.java:3-14 | reading the bias part back after `set_b` gives the bias, and the weight part is untouched |
| WeightUtils.WriteBlock | src/main/java/WeightUtils.java:18 | `weights.set(M.rows(), M_vector)` with a freshly serialized vector: an index past the window throws and changes nothing; otherwise the clipped block is written at that index and every other backing cell is kept |
| Strings.Join | src/main/java/com/jace/util/Strings.java:15-22 | `join(List, String)`: the entries in order with the separator between consecutive ones; an empty list throws |
| Strings.JoinArray | src/main/java/com/jace/util/Strings.java:11-13 | `join(T[], String)` joins the array's entries as a list |
| Strings.JoinChar | src/main/java/com/jace/util/Strings.java:28-30 | `join(List, char)` joins with the one-character separator |
| Strings.JoinArrayChar | src/main/java/com/jace/util/Strings.java:24-26 | `join(T[], char)` joins the array with the one-character separator |
| Strings.JoinVector | src/main/java/com/jace/util/Strings.java:32-35 | `join(Vector, String)` joins the rendered elements; a null buffer or an empty vector throws |
| Strings.JoinVectorChar | src/main/java/com/jace/util/Strings.java:37-39 | `join(Vector, char)` joins the rendered elements with the one-character separator |
| Strings.JoinedLength | src/main/java/com/jace/util/Strings.java:15-22 | the joined text is as long as the entries plus one separator fewer than there are entries |
| Strings.JoinedSingle | src/main/java/com/jace/util/Strings.java:20 | one entry is joined without a separator |
| Strings.JoinedSplit | src/main/java/com/jace/util/Strings.java:17-20 | joining splits at any separator: the first `k+1` entries joined, the separator, the rest joined |
| Strings.TerminatedConcat | src/main/java/com/jace/util/Strings.java:17-19 | appending each entry and the separator over two lists in turn is doing it over their concatenation |
| Layers.Layer.constructor | src/main/java/com/jace/layer/Layer.java:16-22 | stores inputs and outputs; activation and blame start as `outputs` zeros |
| Layers.Layer.SetActivation | src/main/java/com/jace/layer/Layer.java:40-46 | the activation read back is the one stored; the blame is kept |
| Layers.Layer.SetBlame | src/main/java/com/jace/layer/Layer.java:48-54 | the blame read back is the one stored; the activation is kept |
| Layers.Topology | src/main/java/com/jace/layer/Layer.java:66-71 | the description is bracketed: it starts with `[` and ends with `]` |
| Layers.TopologyIdentifies | src/main/java/com/jace/layer/Layer.java:66-71 | equal descriptions have equal kinds, sizes and weight counts, so the description identifies them |
| Layers.NamesDiffer | src/main/java/com/jace/layer/Layer.java:6-8 | different enum constants print differently |
| RootTensors.Tensor.Create | src/main/java/Tensor.java:10-25 | throws "Mismatching sizes" unless the product of the dimensions is the vector's size; otherwise wraps the same values with its own dimensions |
| RootTensors.Tensor.CopyOf | src/main/java/Tensor.java:30-34 | the copy wraps the same backing values (writes are shared) and holds equal dimensions of its own |
| RootTensors.Tensor.Convolve | src/main/java/Tensor.java:46-151 | arities that differ throw, no dimension at all throws the index error, and nothing is written then; otherwise the clamped, centred convolution is ADDED to the output's previous contents |
| RootTensors.CountElements | src/main/java/Tensor.java:153-155 | the product of the dimensions: 1 for none, 0 exactly when one dimension is 0 |
| RootTensors.Test1D | src/main/java/Tensor.java:165-183 | the 1D fixture passes: `[2,3,1,0,1]` with flipped `[1,0,2]` gives `[2,3,5,6,3,0,2]` |
| RootTensors.Test2D | src/main/java/Tensor.java:185-216 | the 2D fixture passes: the 3×3 image with the unflipped 3×3 kernel gives `[-13,-20,-17,-18,-24,-18,13,20,17]` |
| Tensors.SizesEqual | src/main/java/com/jace/math/Tensor.java:330-342 | `sizesEqual` is true exactly when the two dimension lists are equal, length and entries |
| Tensors.InitializeDimensionSteps | src/main/java/com/jace/math/Tensor.java:55-62 | no dimension at all throws (writing `steps[0]`); otherwise step `i` is the product of the dimensions below `i` |
| Tensors.WriteAt | src/main/java/com/jace/math/Tensor.java:64-87 | writing the flat cell of one in-range position changes that position and no other in-range position |
| Tensors.PerFilterBlock | src/main/java/com/jace/math/Tensor.java:147-171 | block `i` of the per-filter result is the convolution of the single input layer with filter slice `i` |
| Tensors.PerLayerSum | src/main/java/com/jace/math/Tensor.java:181-197 | each entry of the per-layer result is the sum, over the layers, of that entry of each layer's convolution |
| Tensors.Tensor.Create | src/main/java/com/jace/math/Tensor.java:9-13 | `new Tensor(dims)`: no dimension throws (from the step table); otherwise a fresh tensor of `product(dims)` zeros with those dimensions |
| Tensors.Tensor.FromVector | src/main/java/com/jace/math/Tensor.java:19-31 | `new Tensor(values, dims)`: "Mismatching sizes" unless the product of the dimensions is the vector's size, the step-table error for no dimension; otherwise the same backing values under the new dimensions |
| Tensors.Tensor.CopyOf | src/main/java/com/jace/math/Tensor.java:36-41 | the copy constructor wraps the same backing values and holds equal dimensions |
| Tensors.Tensor.CalculateIndex | src/main/java/com/jace/math/Tensor.java:64-77 | a position of the wrong arity throws; otherwise the index is the mixed-radix flat index of the position |
| Tensors.Tensor.Get | src/main/java/com/jace/math/Tensor.java:79-82 | the wrong arity throws; otherwise the backing cell at `start + index` is read, a null buffer or a cell outside the buffer throws; for an in-range position the result is the element at that position |
| Tensors.Tensor.Set | src/main/java/com/jace/math/Tensor.java:84-87 | the same errors as `get`, and nothing is written then; otherwise exactly that backing cell changes, so an in-range position reads back the value and every other position is kept |
| Tensors.Tensor.AsTensor | src/main/java/com/jace/math/Tensor.java:89-107 | a tensor with the wanted dimensions is returned itself; otherwise a new tensor over the same values when the element counts agree, the constructor's error for a plain vector and the "different dimensions" error for a tensor when they do not |
| Tensors.Tensor.Layers | src/main/java/com/jace/math/Tensor.java:109-113 | the elements divide into `lastDimension` slices of equal length |
| Tensors.Tensor.SliceElements | src/main/java/com/jace/math/Tensor.java:117-121 | segment `i` holds exactly the `i`-th contiguous block of the tensor's elements |
| Tensors.Tensor.SplitByLastDimension | src/main/java/com/jace/math/Tensor.java:109-124 | one slice per index of the last dimension, slice `i` a view of block `i` with the leading dimensions; a non-empty 1-D tensor throws (its slices would have no dimension) |
| Tensors.Tensor.CheckDimensions | src/main/java/com/jace/math/Tensor.java:126-137 | passes exactly when input, filter and output have the same arity, and throws otherwise |
| Tensors.Tensor.Convolve | src/main/java/com/jace/math/Tensor.java:199-217 | arities that differ throw before any write; otherwise the clamped, centred convolution is ADDED to the output window and nothing else changes |
| Tensors.Tensor.ConvolvePerFilter | src/main/java/com/jace/math/Tensor.java:147-171 | the arity, "input not one layer" and "filter count" errors in the source's order, nothing written on any error; otherwise filter `i`'s convolution of the single input layer is added to output slice `i` |
| Tensors.Tensor.FilterNext | src/main/java/com/jace/math/Tensor.java:167-170 | one more filter extends the per-filter sum by its own convolution, written right after the earlier ones |
| Tensors.Tensor.ConvolvePerLayer | src/main/java/com/jace/math/Tensor.java:181-197 | the "same last dimension" and "result one layer" errors, then the split and arity errors, nothing written on any error; otherwise the convolutions of every input layer with its filter layer are summed into the result's single slice |
| Tensors.Tensor.LayerNext | src/main/java/com/jace/math/Tensor.java:194-196 | one more layer adds its convolution to the per-layer sum |
| Tensors.Test1D | src/main/java/com/jace/math/Tensor.java:369-387 | the 1D fixture passes: `[2,3,1,0,1]` with flipped `[1,0,2]` gives `[2,3,5,6,3,0,2]` |
| Tensors.Test2D | src/main/java/com/jace/math/Tensor.java:389-420 | the 2D fixture passes: the 3×3 image with the unflipped 3×3 kernel gives `[-13,-20,-17,-18,-24,-18,13,20,17]` |
| Convolution.Convolve | src/main/java/com/jace/math/Tensor.java:217-320 | the odometer loop nest adds, at every output position, the sum over the clamped filter box of `in[o+k-pad]·filter[k]` (the filter read backwards when flipped), and writes nothing outside the output window |
| Convolution.ConvolvedAt | src/main/java/com/jace/math/Tensor.java:256-296 | the value added at output position `o` is the box sum at `o` |
| Convolution.AddedIntoAt | src/main/java/com/jace/math/Tensor.java:296 | adding into a window changes exactly the cells of the window, each by its value |
| Convolution.AddedTwice | src/main/java/com/jace/math/Tensor.java:194-196 | adding two sequences into the same window in turn is adding their sum |
| Convolution.AddedConcat | src/main/java/com/jace/math/Tensor.java:167-170 | adding into adjacent windows in turn is adding the concatenation |
| Indexing.FlatOfUnrank | src/main/java/com/jace/math/Tensor.java:55-77 | the flat index of the position numbered `j` is `j` |
| Indexing.UnrankOfFlat | src/main/java/com/jace/math/Tensor.java:55-77 | the position numbered by the flat index of an in-range position is that position |
| Indexing.FlatBounds | src/main/java/com/jace/math/Tensor.java:64-77 | the flat index of an in-range position lies in `[0, product of the dimensions)` |
| Indexing.FlatInjective | src/main/java/com/jace/math/Tensor.java:64-77 | different in-range positions have different flat indices |
| Matrices.RowsOf | src/main/java/Matrix.java:444-446 | row `i` of the table is the contents of row array `i` |
| Matrices.Matrix.Cells | src/main/java/Matrix.java:403-412 | the cells form a `rows()×cols()` rectangle, row `i` being the contents of row array `i` |
| Matrices.Matrix.Empty | src/main/java/Matrix.java:35-37 | `new Matrix()`: no rows, no columns, an empty file name |
| Matrices.Matrix.CheckIndex | src/main/java/Matrix.java:419-427 | passes exactly for a row in `[0, rows)` and a column in `[0, cols)`; the row error is reported before the column error |
| Matrices.Matrix.Get | src/main/java/Matrix.java:429-433 | the index check's error, or else the cell at `(row, column)` |
| Matrices.Matrix.Set | src/main/java/Matrix.java:435-439 | the index check's error and no change, or else exactly cell `(row, column)` becomes the value |
| Matrices.Matrix.SetThenGet | src/main/java/Matrix.java:429-439 | after `set(r, c, v)`, `get(r, c)` is `v` and every other cell reads as before |
| Matrices.Matrix.SwapRows | src/main/java/Matrix.java:467-471 | rows `a` and `b` exchange places (the row arrays themselves move); an index outside the rows throws and changes nothing |
| Matrices.Matrix.SwapColumns | src/main/java/Matrix.java:837-846 | columns `a` and `b` exchange their values in every row and their metadata; an index outside the columns throws and changes nothing |
| Matrices.Matrix.Fill | src/main/java/Matrix.java:632-637 | every cell holds the value |
| Matrices.Matrix.Scale | src/main/java/Matrix.java:650-655 | every cell is multiplied by the scalar |
| Matrices.Matrix.Create | src/main/java/Matrix.java:39-42 | `new Matrix(rows, cols)` via `setSize`: rows with no column throw; otherwise a `rows×cols` table of zeros (negative sizes count as 0) with continuous columns |
| Matrices.Matrix.NewColumns | src/main/java/Matrix.java:301-305 | clears the rows and adds `n` continuous columns to the metadata |
| Matrices.Matrix.NewRow | src/main/java/Matrix.java:318-327 | a matrix without columns throws; otherwise one fresh zero row is appended and the existing rows are kept |
| Matrices.Matrix.NewRows | src/main/java/Matrix.java:394-398 | `n` zero rows are appended after the existing rows; `n > 0` without columns throws |
| Matrices.Matrix.Deserialize | src/main/java/Matrix.java:709-724 | a vector shorter than `rows·columns` throws "too small"; otherwise the table holds the vector's first `rows·columns` elements row by row |
| Matrices.Matrix.Serialize | src/main/java/Matrix.java:726-738 | an empty matrix throws; otherwise a fresh vector holding the cells row by row |
| Grids.UnflattenFlatten | src/main/java/Matrix.java:709-738 | deserializing what `serialize` wrote gives the table back |
| Grids.FlattenUnflatten | src/main/java/Matrix.java:709-738 | serializing a deserialized table gives the vector back |
| Matrices.Matrix.CopyBlock | src/main/java/Matrix.java:561-586 | a destination block outside this matrix, then a source block outside `that`, throws and changes nothing; otherwise the metadata columns are copied one by one as written (`copyAttributeToMetadata` reads the value map of `that` at `destCol + i`), which throws `IndexOutOfBounds` after the earlier copies once `destCol + i` passes `that`'s width; only when every copy passes is exactly the block pasted; `that` is unchanged |
| Grids.PasteBlockRows | src/main/java/Matrix.java:561-586 | rows outside the destination block are kept, and inside it only the block's columns change |
| Matrices.Matrix.Transpose | src/main/java/Matrix.java:825-832 | a fresh matrix whose cell `(j, i)` is this matrix's cell `(i, j)`; columns without rows throw |
| Grids.TransposeTwice | src/main/java/Matrix.java:825-832 | transposing twice gives the original table |
| Matrices.Matrix.Multiply | src/main/java/Matrix.java:855-907 | inner sizes that differ throw "can't do"; otherwise the product of the (optionally transposed) operands |
| Grids.TimesIdentity | src/main/java/Matrix.java:677-682 | multiplying by the identity that `setToIdentity` builds gives the table back |
| Matrices.Matrix.FromVector | src/main/java/Matrix.java:50-58 | a row vector becomes the single row, a column vector the single column; an empty row vector throws |
| Matrices.Matrix.ColumnValues | src/main/java/Matrix.java:448-454 | entry `i` is cell `(i, col)` |
| Matrices.Matrix.ColumnMin | src/main/java/Matrix.java:504-514 | the smallest known value of the column (`Double.MAX_VALUE` if none); a bad column throws when there are rows |
| Matrices.Matrix.ColumnMax | src/main/java/Matrix.java:521-531 | the largest known value of the column (`-Double.MAX_VALUE` if none); a bad column throws when there are rows |
| Matrices.Matrix.ColumnMean | src/main/java/Matrix.java:485-497 | the mean of the known values of the column, NaN when none is known; a bad column throws when there are rows |
| ColumnStats.MinKnown | src/main/java/Matrix.java:504-514 | at most every known value and equal to one of them, or `MAX_VALUE` when nothing is known |
| ColumnStats.MaxKnown | src/main/java/Matrix.java:521-531 | at least every known value and equal to one of them, or `-MAX_VALUE` when nothing is known |
| ColumnStats.MeanOf | src/main/java/Matrix.java:485-497 | NaN exactly when no value is known |
| ColumnStats.MeanBetween | src/main/java/Matrix.java:485-531 | a defined mean lies between the column's minimum and maximum |
| ColumnStats.MeanWithin | src/main/java/Matrix.java:485-497 | a mean of known values that lie in `[lo, hi]` lies in `[lo, hi]` |
| ColumnStats.NothingKnown | src/main/java/Matrix.java:485-497 | when no value is known every value is the unknown marker and the known sum is 0 |
| ColumnStats.KnownSumBounds | src/main/java/Matrix.java:485-497 | the known sum lies between `count·lo` and `count·hi` |
| Matrices.Matrix.FillFrom | src/main/java/Matrix.java:639-645 | the cells, row by row, are the supplier's next `rows·cols` values |
| Grids.FlattenSupplied | src/main/java/Matrix.java:639-645 | filling row by row from consecutive supplier values reads back, flattened, as one run of the supplier |
| Matrices.Matrix.AddScaled | src/main/java/Matrix.java:664-672 | shapes that differ throw and change nothing; otherwise `this += scalar·that` cell by cell |
| Matrices.Matrix.ToOneHot | src/main/java/Matrix.java:603-627 | more than one column throws; a largest label of `Integer.MAX_VALUE` makes `maxValue + 1` wrap negative and the constructor throws for rows without columns; a negative label throws; otherwise row `i` has a 1 at column `label(i)` and 0 elsewhere, with `max label + 1` columns |
| Grids.OneHotDecodes | src/main/java/Matrix.java:603-627 | the 1 of row `i` is at column `label(i)` and only there, so the label is recovered |
| Grids.OneHotRowSum | src/main/java/Matrix.java:603-627 | each one-hot row sums to 1 |
| Matrices.Matrix.ComputeFoldSizes | src/main/java/Matrix.java:1256-1270 | zero folds throws (division by zero); otherwise the balanced fold sizes |
| Folds.FoldSizes | src/main/java/Matrix.java:1256-1270 | `folds` sizes, each `total/folds` or one more |
| Folds.FoldSizesTotal | src/main/java/Matrix.java:1256-1270 | the fold sizes add up to the total |
| Folds.FoldSizesBalanced | src/main/java/Matrix.java:1256-1270 | earlier folds are at most one larger than later ones and never smaller |
| Folds.FoldFits | src/main/java/Matrix.java:1290-1302 | the rows before a fold plus the fold fit in the total |
| Matrices.Matrix.MatrixFold | src/main/java/Matrix.java:1290-1302 | a bad fold index, a fold past the rows or rows without columns throw; otherwise the fold's rows, in order, with the source's metadata |
| Matrices.Matrix.MatrixWithoutFold | src/main/java/Matrix.java:1272-1288 | a bad fold index or a range error throws; otherwise the rows before the fold followed by the rows after it |
| Grids.FoldRows | src/main/java/Matrix.java:1290-1302 | pasting the fold's rows into an empty table gives exactly those rows |
| Grids.RowsAfterFold | src/main/java/Matrix.java:1272-1288 | the two pastes of `matrixWithoutFold` give the rows before and the rows after the fold |
| Matrices.CopyColumnRange | src/main/java/Matrix.java:575-578 | the metadata loop of `copyBlock` leaves the destination columns and outcome of `CopyColumnsAsWritten` |
| Matrices.CopyColumnsAsWrittenStays | src/main/java/Matrix.java:575-578 | once a column copy has thrown, the later iterations are never reached: the outcome of the loop stays the one at the throw |
| Matrices.CreateOneHot | src/main/java/Matrix.java:618 | `new Matrix(rows(), maxValue + 1)` with the `int` sum: a zero matrix one column wider than the largest label, or the no-columns exception exactly when the largest label is `Integer.MAX_VALUE` |
| Matrices.MarkOneHot | src/main/java/Matrix.java:620-624 | a label outside `[0, maxValue]` throws; otherwise the zero matrix becomes the one-hot table of the labels, and the source rows are untouched |
| Matrices.SwapInRows | src/main/java/Matrix.java:838-843 | every row array afterwards holds its row with entries `a` and `b` exchanged |
| ColumnMetadata.Metadata.constructor | src/main/java/com/jace/math/Metadata.java:16-21 | `new Metadata()`: an empty file name and no columns |
| ColumnMetadata.Metadata.Named | src/main/java/com/jace/math/Metadata.java:23-26 | `new Metadata(fileName)`: that file name and no columns |
| ColumnMetadata.Metadata.CopyMetadataAsWritten | src/main/java/com/jace/math/Metadata.java:28-34 | `copy()` as written always throws a null-pointer error |
| ColumnMetadata.Metadata.CopyMetadata | src/main/java/com/jace/math/Metadata.java:28-34 | corrected `copy()`: a fresh object with the same file name and the same columns and maps |
| ColumnMetadata.Metadata.Clear | src/main/java/com/jace/math/Metadata.java:52-57 | the file name becomes `""` and all three lists are empty |
| ColumnMetadata.Metadata.AddColumn | src/main/java/com/jace/math/Metadata.java:59-63 | one new last column with the name and two empty maps, so it is continuous and its maps are inverse |
| ColumnMetadata.Metadata.AddNumberedColumn | src/main/java/com/jace/math/Metadata.java:65-81 | one new last column named `col_<index>` whose maps number `val_0 .. val_<n-1>` as `0 .. n-1` both ways |
| ColumnMetadata.ValueNamesDistinct | src/main/java/com/jace/math/Metadata.java:73-77 | the value names `val_i` are pairwise different, so each gets its own number |
| ColumnMetadata.EnumeratesExtend | src/main/java/com/jace/math/Metadata.java:115-128 | numbering a new attribute with the current map size keeps the two maps inverse and the numbers in `[0, size)` |
| ColumnMetadata.NumberedExtend | src/main/java/com/jace/math/Metadata.java:185-204 | numbering one more new value keeps the maps a numbering of the longer list |
| ColumnMetadata.NumberedLookup | src/main/java/com/jace/math/Metadata.java:185-204 | in a numbering of distinct values, value `i` maps to `i` |
| ColumnMetadata.SwapColumnsOf | src/main/java/com/jace/math/Metadata.java:91-103 | columns `a` and `b` exchange name and both maps; every other column is kept |
| ColumnMetadata.ContinuousColumns | src/main/java/Matrix.java:301-305 | `n` columns named `col_0 .. col_<n-1>`, all with empty maps |
| ColumnMetadata.CopyAsWritten | src/main/java/com/jace/math/Metadata.java:83-89 | `copyAttributeToMetadata` as written: name and attribute→value map from `source`, but value→attribute map from index `dest` of this metadata |
| ColumnMetadata.CopyAsWrittenBreaksEnumeration | src/main/java/com/jace/math/Metadata.java:83-89 | copying an enumerated column 0 to column 1 as written leaves column 1's two maps not inverse |
| ColumnMetadata.CopyColumn | src/main/java/com/jace/math/Metadata.java:83-89 | corrected copy: column `dest` becomes column `source` of the other metadata, every other column is kept |
| ColumnMetadata.CopyColumnKeepsEnumeration | src/main/java/com/jace/math/Metadata.java:83-89 | the corrected copy of an enumerated column is enumerated |
| ColumnMetadata.CopyColumnsPastes | src/main/java/Matrix.java:561-586 | copying `k` column attributes from `colBegin` to `destCol` pastes exactly those names and maps |
| ColumnMetadata.CopyAllColumns | src/main/java/Matrix.java:44-48 | copying every column of a same-width metadata reproduces it |
| ColumnMetadata.Metadata.CopyAttributeAsWritten | src/main/java/com/jace/math/Metadata.java:83-89 | an index outside the lists throws; otherwise the destination's columns become `CopyAsWritten` of them |
| ColumnMetadata.Metadata.CopyAttributeTo | src/main/java/com/jace/math/Metadata.java:83-89 | corrected method: a bad index throws and changes nothing; otherwise the destination's columns become `CopyColumn` of them |
| ColumnMetadata.Metadata.SwapColumns | src/main/java/com/jace/math/Metadata.java:91-103 | a bad index throws and changes nothing; otherwise the columns are `SwapColumnsOf` the old ones |
| ColumnMetadata.Metadata.ValueForAttribute | src/main/java/com/jace/math/Metadata.java:105-113 | a bad column, then a missing attribute, throws; otherwise the attribute's number, inside `[0, size)` for an enumerated column |
| ColumnMetadata.Metadata.AttributeForValue | src/main/java/com/jace/math/Metadata.java:130-139 | a bad column, then a missing value, throws; otherwise the value's attribute |
| ColumnMetadata.Metadata.LookupRoundTrip | src/main/java/com/jace/math/Metadata.java:105-139 | in an enumerated column attribute→value→attribute and value→attribute→value both come back |
| ColumnMetadata.Metadata.EnumSize | src/main/java/com/jace/math/Metadata.java:141-147 | a bad column throws; otherwise the size of the value→attribute map |
| ColumnMetadata.Metadata.AttributeIsContinuous | src/main/java/com/jace/math/Metadata.java:149-151 | true exactly when the column's value→attribute map is empty |
| ColumnMetadata.Metadata.FindOrCreateValue | src/main/java/com/jace/math/Metadata.java:115-128 | a bad column throws and changes nothing; a known attribute gives its number and changes nothing; a new one gets the current size recorded in both maps; an enumerated column stays enumerated |
| ColumnMetadata.Metadata.ParseAttribute | src/main/java/com/jace/math/Metadata.java:185-204 | a new last column; its values are numbered `0, 1, 2, …` in order, and the first repeated value throws "Duplicate attribute value" with the values before it numbered |
| ColumnMetadata.Enumerate | src/main/java/com/jace/math/Metadata.java:190-204 | numbers the values in order and stops at the first one seen before, which exists exactly when the values are not distinct |
| Formatting.Decimal | src/main/java/com/jace/math/Metadata.java:66 | Java's rendering of an int: the digits of a non-negative number |
| Formatting.DigitsInjective | src/main/java/com/jace/math/Metadata.java:66 | different numbers render to different digit strings |
| Formatting.Labelled | src/main/java/com/jace/math/Metadata.java:66-75 | `prefix + n` names different numbers differently, so `col_i` and `val_i` are unique |
| Formatting.DigitsThenText | src/main/java/com/jace/layer/Layer.java:66-71 | digits followed by a non-digit separator split uniquely |
| ColumnMetadata.CopyColumnsAsWritten | src/main/java/Matrix.java:575-578 | `k` as-written column copies keep the destination well formed and its width; they throw `IndexOutOfBounds` exactly when `destCol + k` passes the source's width |
| ColumnMetadata.AlignedCopiesAsIntended | src/main/java/com/jace/math/Metadata.java:83-89 | when source and destination columns coincide (`colBegin == destCol`, as in every fold copy), the as-written copies pass and equal the corrected ones |
| ColumnMetadata.CopyBlockAsWrittenBreaksEnumeration | src/main/java/Matrix.java:575-578 | a `copyBlock` within one metadata from column 0 to column 1 passes but leaves column 1 not enumerated, where the corrected copy is |
| ColumnMetadata.NumberedValues | src/main/java/com/jace/math/Metadata.java:70-77 | the two maps number `val_0 .. val_<valueCount-1>` as `0 .. valueCount-1`, each the inverse of the other |
| ColumnMetadata.AlignedCopyAll | src/main/java/Matrix.java:1299 | copying every column of a metadata onto one of the same width, column `c` to column `c`, passes and yields the source metadata |
| Dense.MatVec | src/main/java/com/jace/layer/LinearLayer.java:47-50 | entry `i` of `W·x` is the dot product of row `i` with `x` |
| Dense.TransposedMatVec | src/main/java/com/jace/layer/LinearLayer.java:114-118 | entry `j` of `Wᵀ·e` is the dot product of column `j` with `e` |
| Dense.Product | src/main/java/com/jace/layer/LinearLayer.java:47-51 | `multiply(W, column(x)).serialize()`: a size mismatch throws "can't do", no rows throws the serialize error; otherwise `W·x` |
| Dense.ProductByMultiply | src/main/java/com/jace/layer/LinearLayer.java:47-51 | the product equals the flattened matrix product of `W` with `x` as a column |
| Dense.Forward | src/main/java/com/jace/layer/LinearLayer.java:47-56 | the product's errors, then a bias of the wrong size throws; otherwise entry `i` is `row_i·x + bias_i` |
| Dense.Backward | src/main/java/com/jace/layer/LinearLayer.java:114-119 | a blame of the wrong size throws "can't do", no columns throws the serialize error; otherwise `Wᵀ·blame` |
| Dense.BackwardByMultiply | src/main/java/com/jace/layer/LinearLayer.java:114-119 | the backward result equals the flattened product of the transposed weights with the blame as a column |
| Dense.BackwardIsAdjoint | src/main/java/com/jace/layer/LinearLayer.java:47-119 | backward is the adjoint of forward: `(Wᵀe)·x == e·(Wx)` |
| Dense.Outer | src/main/java/com/jace/layer/LinearLayer.java:58-67 | cell `(i, j)` gains `first_i·second_j` where both exist and is otherwise kept |
| Dense.OuterIsProduct | src/main/java/com/jace/layer/LinearLayer.java:58-67 | the update adds the matrix product `first·secondᵀ` |
| Dense.AddOuterProduct | src/main/java/com/jace/layer/LinearLayer.java:58-67 | an entry outside the target throws (the row error, or the column error for a target with rows); otherwise the target plus the outer product; in every case the cells are `OuterLeft`: the entries visited in row order before the throw keep their update |
| Dense.OuterLeftFirstRow | src/main/java/com/jace/layer/LinearLayer.java:58-67 | a second vector wider than the table throws at the end of row 0: row 0 has gained its whole product row and every other row is as it was |
| Activations.Mapped | src/main/java/com/jace/layer/TanhLayer.java:22-25 | `x.map(f)`: the same length, entry `i` is `f(x_i)` |
| Activations.LeakyInvertible | src/main/java/com/jace/layer/LeakyRectifierLayer.java:21-24 | the leaky rectifier keeps zero and the sign, and is undone by scaling negative outputs by 100 |
| Activations.LeakyGateIsSlope | src/main/java/com/jace/layer/LeakyRectifierLayer.java:27-43 | the blame passed back is the blame times the slope at the input (1, 0.01, and 0 at 0) |
| Activations.TanhGateKeepsSign | src/main/java/com/jace/layer/TanhLayer.java:28-36 | with the activation in `[-1, 1]` the blame passed back has the blame's sign and is 0 only for a zero blame |
| Activations.LeakyRectifierLayer.constructor | src/main/java/com/jace/layer/LeakyRectifierLayer.java:7-9 | as many outputs as inputs, zero activation and blame |
| Activations.LeakyRectifierLayer.Copy | src/main/java/com/jace/layer/LeakyRectifierLayer.java:11-13 | a fresh layer of the same size |
| Activations.LeakyRectifierLayer.Activate | src/main/java/com/jace/layer/LeakyRectifierLayer.java:21-24 | the activation and the result are the input mapped through the leaky rectifier; the blame is kept (root `LeakyRectifierLayer.java:17-20` is the same) |
| Activations.LeakyRectifierLayer.BackPropagate | src/main/java/com/jace/layer/LeakyRectifierLayer.java:27-43 | `inputs` entries, each the blame gated by the activation's sign; a blame or activation shorter than `inputs` throws (root `LeakyRectifierLayer.java:23-39` is the same) |
| Activations.TanhLayer.constructor | src/main/java/com/jace/layer/TanhLayer.java:7-9 | as many outputs as inputs, zero activation and blame (root `TanhLayer.java:3-5` and `LayerTanh.java:3-5` likewise) |
| Activations.TanhLayer.Copy | src/main/java/com/jace/layer/TanhLayer.java:12-14 | a fresh layer of the same size with the same `tanh` |
| Activations.TanhLayer.Activate | src/main/java/com/jace/layer/TanhLayer.java:22-25 | the activation and the result are `tanh` of each input; the blame is kept (root `TanhLayer.java:13-16`, `LayerTanh.java:13-16`) |
| Activations.TanhLayer.BackPropagate | src/main/java/com/jace/layer/TanhLayer.java:28-36 | one entry per blame entry, `blame_i·(1 - a_i²)`; an activation shorter than the blame throws (root `TanhLayer.java:19-27`, `LayerTanh.java:19-27`) |
| LinearLayers.Signum | src/main/java/com/jace/layer/LinearLayer.java:128 | `Math.signum`: 0, 1 or -1, with the sign of its argument and 0 only at 0 |
| LinearLayers.PenaltyOpposesWeight | src/main/java/com/jace/layer/LinearLayer.java:124-138 | the regularization shift never has the weight's sign: `-amount·sign(w)` for L1, `-amount·w` for L2, 0 at a zero weight |
| LinearLayers.RegularizedEntries | src/main/java/com/jace/layer/LinearLayer.java:124-138 | NONE changes nothing; entry `k` below `size-1` gains the penalty of weight `k`; the last entry is never regularized |
| LinearLayers.Regularize | src/main/java/com/jace/layer/LinearLayer.java:124-138 | the loop computes `Regularized`; a gradient shorter than the weights minus one throws |
| LinearLayers.PenalizedTable | src/main/java/com/jace/layer/LinearLayer.java:124-138 | on a matrix, read row-major, the penalty is the flat one |
| LinearLayers.PenalizedEntry | src/main/java/com/jace/layer/LinearLayer.java:124-138 | every cell but the last gains its weight's penalty, the last cell is kept |
| LinearLayers.ScaledByZero | src/main/java/com/jace/layer/ConnectedLayer.java:64-70 | a gradient scaled by momentum 0 is all zeros |
| LinearLayers.BiasPlus | src/main/java/com/jace/layer/LinearLayer.java:143 | `biasGradient.add(blame)`: a missing gradient or a size mismatch throws; otherwise the elementwise sum |
| LinearLayers.AccumulateOuter | src/main/java/com/jace/layer/LinearLayer.java:58-67 | the outer product added into the optional gradient, with its errors; on a throw the gradient holds the entries updated before it (`OuterLeftOf`) |
| LinearLayers.PenalizeGradient | src/main/java/com/jace/layer/LinearLayer.java:124-138 | the regularization loop on the optional gradient, with its null and range errors; the gradient is `PenalizedOf` whether or not the loop throws, since the loop only throws once it has passed every gradient entry |
| LinearLayers.LinearLayer.constructor | src/main/java/com/jace/layer/ConnectedLayer.java:22-24 | sizes stored, zero activation and blame, no weights, bias or gradients, regularization NONE with amount 0 |
| LinearLayers.LinearLayer.Copy | src/main/java/com/jace/layer/LinearLayer.java:29-31 | a fresh layer of the same sizes with none of the parameters |
| LinearLayers.LinearLayer.SetWeights | src/main/java/com/jace/layer/ConnectedLayer.java:76-78 | stores the weights; everything else is kept |
| LinearLayers.LinearLayer.SetBias | src/main/java/com/jace/layer/ConnectedLayer.java:84-86 | stores the bias; everything else is kept |
| LinearLayers.LinearLayer.SetRegularization | src/main/java/com/jace/layer/ConnectedLayer.java:35-45 | stores the regularization kind and amount; everything else is kept |
| LinearLayers.LinearLayer.ResetGradient | src/main/java/com/jace/layer/LinearLayer.java:34-44 | missing gradients are created `outputs×inputs` and `outputs` long, then both are zero-filled; outputs without inputs throw |
| LinearLayers.LinearLayer.FillAll | src/main/java/com/jace/layer/ConnectedLayer.java:53-56 | the weights row by row and then the bias take the supplier's next values; missing weights or bias throw |
| LinearLayers.LinearLayer.Initialize | src/main/java/com/jace/layer/LinearLayer.java:19-26 | zeroed gradients, then fresh `outputs×inputs` weights and `outputs` bias filled from the supplier; outputs without inputs throw |
| LinearLayers.LinearLayer.Activate | src/main/java/com/jace/layer/LinearLayer.java:47-56 | the activation becomes `W·x + b`, with the product's and the bias's errors; on an error the activation is kept |
| LinearLayers.LinearLayer.BackPropagate | src/main/java/com/jace/layer/LinearLayer.java:114-119 | `Wᵀ·blame`; missing weights throw |
| LinearLayers.LinearLayer.UpdateGradient | src/main/java/com/jace/layer/LinearLayer.java:122-144 | the weight gradient gains `blame·xᵀ` and then the regularization penalty, the bias gradient gains the blame; each step's error in the source's order; after a throw the weight gradient is `LearnedWeightsGradient` (the visited outer-product entries, or the whole product and the penalty when a later step throws) and the bias gradient is unchanged |
| LinearLayers.LinearLayer.ApplyGradient | src/main/java/com/jace/layer/ConnectedLayer.java:64-70 | `W += lr·∇W`, `b += lr·∇b`, then both gradients are scaled by the momentum; the weight step happens even when the bias step then throws |
| LinearLayers.LinearLayer.ApplyGradientNoMomentum | src/main/java/com/jace/layer/ConnectedLayer.java:59-61 | `applyGradient(lr)` is the momentum-0 step: the parameters move and both gradients become zero |
| LinearLayers.LayerLinear.Make | src/main/java/LayerLinear.java:10-17 | zero `outputs×inputs` weights and gradient, zero bias and bias gradient |
| LinearLayers.LayerLinear.Create | src/main/java/LayerLinear.java:10-17 | outputs without inputs throw (from `new Matrix`); otherwise the zeroed layer |
| LinearLayers.LayerLinear.SetWeights | src/main/java/LayerLinear.java:24-26 | stores the weights; everything else is kept |
| LinearLayers.LayerLinear.SetBias | src/main/java/LayerLinear.java:32-34 | stores the bias; everything else is kept |
| LinearLayers.LayerLinear.InitializeWeights | src/main/java/LayerLinear.java:40-47 | the weights row by row and then the bias take the supplier's next values |
| LinearLayers.LayerLinear.ResetGradient | src/main/java/LayerLinear.java:50-61 | both gradients are zero-filled at their sizes |
| LinearLayers.LayerLinear.Activate | src/main/java/LayerLinear.java:64-73 | the activation becomes `W·x + b`; an error keeps the activation |
| LinearLayers.LayerLinear.BackPropagate | src/main/java/LayerLinear.java:131-136 | `Wᵀ·blame` with its errors |
| LinearLayers.LayerLinear.UpdateGradient | src/main/java/LayerLinear.java:139-142 | the weight gradient gains `blame·xᵀ`, the bias gradient gains the blame, with the outer-product and size errors (no regularization); the weight gradient is `OuterLeft` in every case, so a bias-size throw leaves the whole outer product added, and a throw leaves the bias gradient unchanged |
| LinearLayers.LayerLinear.ApplyGradient | src/main/java/LayerLinear.java:150-156 | the same step as the com.jace layer: parameters move by `lr·gradient`, then the gradients are scaled by the momentum |
| LinearLayers.LayerLinear.ApplyGradientNoMomentum | src/main/java/LayerLinear.java:145-147 | the momentum-0 step: the parameters move and both gradients become zero |
| LinearLayers.LinearFixture | src/test/java/LinearLayerTest.java:11-47 | the linear layer tests: weights `[[1,2,3],[2,1,0]]`, bias `[1,5]` map `[0,1,2]` to `[9,6]`; blame `[0.75,2]` goes back as `[4.75,3.5,2.25]` |
| ConvolutionLayers.Padded | src/main/java/ConvolutionLayer.java:23-34 | the dimension list padded with 1s to length `n`, its given entries kept in front |
| ConvolutionLayers.Normalize | src/main/java/ConvolutionLayer.java:18-39 | the three dimension lists end up of one length, the longest of the three, each the original followed by 1s |
| ConvolutionLayers.ExtendsKeepsCount | src/main/java/ConvolutionLayer.java:28-34 | trailing 1s leave a list's element count unchanged |
| ConvolutionLayers.NormalizeKeepsCounts | src/main/java/ConvolutionLayer.java:8-16 | the input, filter and output element counts, from which the layer's sizes are taken, survive normalizing |
| ConvolutionLayers.NormalizeNormal | src/main/java/ConvolutionLayer.java:18-39 | lists that already share one length are left unchanged |
| ConvolutionLayers.NormalizeIdempotent | src/main/java/ConvolutionLayer.java:74-77 | normalizing twice equals normalizing once, so `copy()` keeps its original's dimensions |
| ConvolutionLayers.Forward | src/main/java/ConvolutionLayer.java:98-104 | the convolution written into the zeroed activation has one entry per output element |
| ConvolutionLayers.Backward | src/main/java/ConvolutionLayer.java:119-124 | the flipped convolution of weights with blame has one entry per input element |
| ConvolutionLayers.GradientStep | src/main/java/ConvolutionLayer.java:141-143 | the input convolved with the blame has one entry per filter element |
| ConvolutionLayers.Shifted | src/main/java/ConvolutionLayer.java:115 | `addScalar(c)`: the same length, every element raised by `c` |
| ConvolutionLayers.Biased | src/main/java/ConvolutionLayer.java:111-117 | biasing the first `count` slices keeps the length |
| ConvolutionLayers.BiasedSlice | src/main/java/ConvolutionLayer.java:114-116 | slice `i` of the biased activation is slice `i` of the activation shifted by `bias[i]` |
| ConvolutionLayers.AllBiased | src/main/java/ConvolutionLayer.java:111-117 | the activation with the biases added to as many of its slices as there are bias entries |
| ConvolutionLayers.AllBiasedSlice | src/main/java/ConvolutionLayer.java:111-117 | when there is a bias for each slice, slice `i` of the result is slice `i` of the activation shifted by `bias[i]` |
| ConvolutionLayers.SliceSums | src/main/java/ConvolutionLayer.java:145-150 | one bias-gradient entry for each of the first `count` blame slices: the sum of that slice (the intended reading of `reduce()` on a slice; see Findings) |
| ConvolutionLayers.SliceSumsPrefix | src/main/java/ConvolutionLayer.java:145-150 | the slice sums add up to the total of the blame slices they cover (about the intended slice sums; see Findings) |
| ConvolutionLayers.SliceSumsTotal | src/main/java/ConvolutionLayer.java:145-150 | taken over every slice, the slice sums total the whole blame once (about the intended slice sums; see Findings) |
| ConvolutionLayers.SliceReducesAsWritten | src/main/java/ConvolutionLayer.java:145-150 | as written: the 1-D split error, or else each bias-gradient entry up to the slice count becomes `reduce()` of a slice view, the sum of the whole blame; an entry without a slice throws after the earlier ones are set |
| ConvolutionLayers.ReduceEach | src/main/java/ConvolutionLayer.java:147-150 | the as-written loop over slices that view the whole blame: the first entries become the blame's sum, the rest are kept, and an entry past the last slice throws |
| ConvolutionLayers.SliceReducesDiffer | src/main/java/ConvolutionLayer.java:145-150 | with two or more slices and a blame of non-zero sum, the as-written entries are not the slice sums |
| ConvolutionLayers.SliceReducesExample | src/main/java/ConvolutionLayer.java:145-150 | blame `[1,2,3,4]` with dimensions `[2,2]`: as written `[10,10]`, intended `[3,7]` |
| ConvolutionLayers.InitialScale | src/main/java/ConvolutionLayer.java:49-50 | the spread of the initial weights is at least 0.01 and at least one over the filter element count |
| ConvolutionLayers.ScaledDraws | src/main/java/ConvolutionLayer.java:50 | the fill supplier: draw `i` is the spread times Gaussian draw `i` |
| ConvolutionLayers.View | src/main/java/com/jace/math/Tensor.java:19-31 | viewing values with dimensions: a count mismatch throws, no dimension throws out of bounds, otherwise a fresh tensor holding the values |
| ConvolutionLayers.Wrapped | src/main/java/com/jace/math/Tensor.java:19-31 | values whose count fits the dimensions become a fresh tensor holding exactly those values |
| ConvolutionLayers.ConvolveForward | src/main/java/ConvolutionLayer.java:100-104 | `convolvePerFilter` for a one-layer input, else `convolve`: fails exactly when the filter and output counts differ or a range leaves the tensor; otherwise the result is `Forward` |
| ConvolutionLayers.ForwardPerFilter | src/main/java/com/jace/math/Tensor.java:147-171 | what `convolvePerFilter` leaves in the zeroed activation is `Forward` |
| ConvolutionLayers.ForwardWhole | src/main/java/com/jace/math/Tensor.java:199-217 | what `convolve` leaves in the zeroed activation is `Forward` |
| ConvolutionLayers.ConvolveBackward | src/main/java/ConvolutionLayer.java:121-123 | `convolvePerLayer` with flipping: throws when the layer counts differ, when the result is not one layer, or out of bounds; otherwise `Backward` |
| ConvolutionLayers.BackwardLink | src/main/java/com/jace/math/Tensor.java:181-197 | what `convolvePerLayer` leaves in the zeroed result is `Backward` |
| ConvolutionLayers.ConvolveGradient | src/main/java/ConvolutionLayer.java:141-143 | throws when the input is not one layer, when the filter count differs, or out of bounds; otherwise the gradient plus `GradientStep` |
| ConvolutionLayers.GradientLink | src/main/java/com/jace/math/Tensor.java:147-171 | what `convolvePerFilter` leaves in the weight gradient is the old gradient plus `GradientStep` |
| ConvolutionLayers.AddBiases | src/main/java/ConvolutionLayer.java:111-117 | a missing bias throws a null dereference, a short bias throws out of bounds after biasing the slices it covers, otherwise every slice is biased |
| ConvolutionLayers.AddEachBias | src/main/java/ConvolutionLayer.java:114-116 | the slice loop: fails exactly when the bias is shorter than the slice count, having biased the slices it covers |
| ConvolutionLayers.SetSliceSums | src/main/java/ConvolutionLayer.java:147-150 | the loop leaves each bias-gradient entry equal to its own blame slice's sum, the corrected reading of `reduce()` on a slice (see Findings) |
| ConvolutionLayers.ActivationSlice | src/main/java/ConvolutionLayer.java:94-109 | for a one-layer input, slice `i` of the activation is filter `i` convolved over the input, shifted by `bias[i]` |
| ConvolutionLayers.ForwardSlice | src/main/java/com/jace/math/Tensor.java:147-171 | for a one-layer input, output slice `i` is filter `i` convolved over the input |
| ConvolutionLayers.BackwardEntry | src/main/java/com/jace/math/Tensor.java:181-197 | entry `j` of `backPropagate`'s result is the sum over the filters of each flipped filter against its blame layer |
| ConvolutionLayers.GradientSlice | src/main/java/com/jace/math/Tensor.java:147-171 | slice `i` of the weight-gradient step is the input convolved with blame layer `i` |
| ConvolutionLayers.ActivateSteps | src/main/java/ConvolutionLayer.java:94-117 | `activate(x)` on values: an input or activation of the wrong count throws, missing weights throw after zeroing, then the convolution errors, then the bias errors; otherwise the biased convolution |
| ConvolutionLayers.BiasSteps | src/main/java/ConvolutionLayer.java:106-117 | splitting a one-dimensional activation throws; otherwise the slices are biased, a missing or short bias throwing |
| ConvolutionLayers.BackwardSteps | src/main/java/ConvolutionLayer.java:119-124 | `backPropagate()` on values: no dimension, a blame of the wrong count, missing weights or a failing convolution throw; otherwise `Backward` |
| ConvolutionLayers.GradientSteps | src/main/java/ConvolutionLayer.java:139-151 | `updateGradient(x)` on values: the weight gradient gains `GradientStep`, then the bias gradient becomes the blame slice sums (the corrected reading; see Findings); a missing bias gradient throws after the weight gradient changed |
| ConvolutionLayers.Reshape | src/main/java/com/jace/math/Tensor.java:89-107 | `asTensor` of a tensor: its own dimensions, or others with the same count, give back the same values; otherwise "dimensions differ" |
| ConvolutionLayers.ConvolutionLayer.constructor | src/main/java/ConvolutionLayer.java:8-16 | sizes are the input and output element counts; the dimensions are stored normalized; no weights, bias or gradients yet |
| ConvolutionLayers.ConvolutionLayer.Copy | src/main/java/ConvolutionLayer.java:74-77 | a fresh layer with the same dimensions and sizes, and no parameters or gradients |
| ConvolutionLayers.ConvolutionLayer.SetWeights | src/main/java/ConvolutionLayer.java:53-63 | the weights are viewed with the filter dimensions and then replaced; a count mismatch throws "dimensions differ" and leaves them unchanged |
| ConvolutionLayers.ConvolutionLayer.SetBias | src/main/java/ConvolutionLayer.java:65-72 | a bias whose length is not the filter count throws and leaves the bias; otherwise it is replaced |
| ConvolutionLayers.ConvolutionLayer.ResetGradient | src/main/java/ConvolutionLayer.java:126-137 | the missing gradients are created, then both gradients are zero and sized by the filter dimensions |
| ConvolutionLayers.ConvolutionLayer.FillAll | src/main/java/ConnectedLayer.java:25-28 | the weights, then the bias, take successive draws of the supplier; missing weights or a missing bias throw a null dereference |
| ConvolutionLayers.ConvolutionLayer.Initialize | src/main/java/ConvolutionLayer.java:41-51 | a zero activation, then weights and bias drawn with spread `InitialScale` from successive Gaussian draws |
| ConvolutionLayers.ConvolutionLayer.Activate | src/main/java/ConvolutionLayer.java:94-109 | the activation and result are as `ActivateSteps` states; the blame is unchanged |
| ConvolutionLayers.ConvolutionLayer.BackPropagate | src/main/java/ConvolutionLayer.java:119-124 | the result is as `BackwardSteps` states; nothing changes |
| ConvolutionLayers.ConvolutionLayer.UpdateGradient | src/main/java/ConvolutionLayer.java:139-151 | the gradients and outcome are as `GradientSteps` states, with the bias gradient set to the slice sums (the corrected reading; see Findings) |
| ConvolutionLayers.ConvolutionLayer.ApplyGradient | src/main/java/ConnectedLayer.java:35-42 | weights += rate·gradient, bias += rate·bias gradient, then both gradients scale by the momentum; a missing part throws a null dereference at that step |
| ConvolutionLayers.ConvolutionLayer.ApplyGradientNoMomentum | src/main/java/ConnectedLayer.java:30-33 | the update with momentum 0: the parameters take the step and the gradients end up zero |
| Pooling.OffsetIsFlat | src/main/java/com/jace/math/Tensor.java:64-77 | the pooling offset of `(a, b, c)` is the tensors' flat index of that position |
| Pooling.OffsetBelow | src/main/java/MaxPooling2DLayer.java:83-101 | a position within range lies below the element count |
| Pooling.OffsetInjective | src/main/java/MaxPooling2DLayer.java:83-101 | two in-range positions share an offset exactly when they are the same position |
| Pooling.Out | src/main/java/MaxPooling2DLayer.java:101 | where output cell `(i, j, k)` sits in the activation: below the output count |
| Pooling.Corner | src/main/java/MaxPooling2DLayer.java:86-89 | where corner `q` of block `(i, j, k)` sits in the input: below the input count |
| Pooling.OutInjective | src/main/java/MaxPooling2DLayer.java:101 | distinct output cells sit at distinct places |
| Pooling.CornerInjective | src/main/java/MaxPooling2DLayer.java:86-89 | distinct corners, of one block or of different ones, sit at distinct places of the input |
| Pooling.OutOnto | src/main/java/MaxPooling2DLayer.java:83-85 | every place of the activation belongs to some output cell |
| Pooling.Block | src/main/java/MaxPooling2DLayer.java:86-91 | the four values of block `(i, j, k)`, in corner order |
| Pooling.Winner | src/main/java/MaxPooling2DLayer.java:93-98 | an index of a largest value, and the first one: every earlier value is strictly smaller |
| Pooling.ArgMax | src/main/java/MaxPooling2DLayer.java:93-98 | the comparison loop finds `Winner` |
| Pooling.Pick | src/main/java/MaxPooling2DLayer.java:93-100 | the winning corner is one of the four |
| Pooling.PoolEntry | src/main/java/MaxPooling2DLayer.java:86-101 | the pooled value is at least each of the four corners, is the winning corner's value, and beats every earlier corner strictly |
| Pooling.PoolRow | src/main/java/MaxPooling2DLayer.java:85-102 | after row `j` of slice `k`, every output cell up to it is pooled and its winner recorded |
| Pooling.PoolSlice | src/main/java/MaxPooling2DLayer.java:84-103 | after slice `k`, every output cell up to it is pooled and its winner recorded |
| Pooling.Pool | src/main/java/MaxPooling2DLayer.java:83-104 | the activation holds `PoolEntry` at every output cell and the map records `Pick` for every cell; other keys are untouched |
| Pooling.RouteRow | src/main/java/MaxPooling2DLayer.java:117-138 | the row loop of `backPropagate` fails exactly when a block of it has no recorded winner, with a null dereference |
| Pooling.RouteSlice | src/main/java/MaxPooling2DLayer.java:116-139 | the slice loop of `backPropagate` fails exactly when a block up to it has no recorded winner |
| Pooling.Route | src/main/java/MaxPooling2DLayer.java:112-142 | without a winner for every block it throws; otherwise each block's winning corner gets its blame and the other corners 0, so the total blame is conserved |
| Pooling.Wins | src/main/java/MaxPooling2DLayer.java:93-101 | a corner strictly larger than the other three wins its block and is the pooled value |
| Pooling.ShapeCounts | src/main/java/MaxPooling2DLayer.java:45-66 | with even spatial dimensions the input count is the pooled shape's input count and a quarter of it is its output count |
| Pooling.MaxPooling2DLayer.constructor | src/main/java/MaxPooling2DLayer.java:45-66 | output dimensions halve the first two; sizes are the count and a quarter of it; the map starts empty |
| Pooling.MaxPooling2DLayer.Create | src/main/java/MaxPooling2DLayer.java:50-58 | not three dimensions, or an odd first or second dimension, throws the matching message; otherwise a fresh layer |
| Pooling.MaxPooling2DLayer.Copy | src/main/java/MaxPooling2DLayer.java:73-76 | a fresh layer over the same dimensions with no winner recorded |
| Pooling.MaxPooling2DLayer.Activate | src/main/java/MaxPooling2DLayer.java:78-108 | a wrong input or activation count throws and changes nothing; otherwise the activation is the block maxima and the map records each block's winning corner |
| Pooling.MaxPooling2DLayer.BackPropagate | src/main/java/MaxPooling2DLayer.java:110-143 | a wrong blame count or an unrecorded block throws; otherwise the blame of each output cell goes to its winning corner, zero elsewhere, and the total is conserved |
| Fixtures.CheckOutput | src/main/java/com/jace/math/Tensor.java:383-386 | an output equal to the expected values is within the squared tolerance, so the check passes |
| Fixtures.Convolved1 | src/main/java/com/jace/math/Tensor.java:256-296 | a rank-one convolution is, entry by entry, the sum of its taps over the clamped filter range |
| Fixtures.Entry2 | src/main/java/com/jace/math/Tensor.java:256-296 | a rank-two output entry is the sum, row by row, of its taps over the clamped filter box |
| Fixtures.OneDFixture | src/main/java/com/jace/math/Tensor.java:369-387 | `[2,3,1,0,1]` convolved with `[1,0,2]` flipped, padding 2, is `[2,3,5,6,3,0,2]` |
| Fixtures.TwoDFixture | src/main/java/com/jace/math/Tensor.java:389-420 | the 3×3 image `1..9` convolved with the unflipped edge kernel, padding 1, is `[-13,-20,-17,-18,-24,-18,13,20,17]` |
| Networks.SnapOf | src/main/java/com/jace/layer/Layer.java:16-22 | the values a well-formed layer holds are well formed |
| Networks.TanhBack | src/main/java/com/jace/layer/TanhLayer.java:28-36 | one entry per blame entry, each the blame gated by the tanh slope at the activation |
| Networks.LeakyBack | src/main/java/com/jace/layer/LeakyRectifierLayer.java:27-43 | `inputs` entries, each the blame gated by the leaky slope at the activation |
| Networks.Learned | src/main/java/com/jace/learner/NeuralNetwork.java:105-108 | `updateGradient` of one layer, whether or not it throws: the gradients the steps before any throw wrote; it keeps the layer well formed and keeps its weights and bias |
| Networks.LearnedOnPass | src/main/java/com/jace/learner/NeuralNetwork.java:105-108 | a completed `updateGradient` adds the outer product (then the penalties) to the weight gradient and the blame to the bias gradient |
| Networks.Applied | src/main/java/com/jace/learner/NeuralNetwork.java:83-85 | `applyGradient` of one layer keeps it well formed |
| Networks.ActivateUnit | src/main/java/com/jace/learner/NeuralNetwork.java:72-76 | `activate` of any layer kind returns `Output` of its values; on success the activation is the result; parameters and blame stay |
| Networks.BackUnit | src/main/java/com/jace/learner/NeuralNetwork.java:96 | `backPropagate` of any layer kind returns `Back` of its values, activation, size and blame |
| Networks.LearnUnit | src/main/java/com/jace/learner/NeuralNetwork.java:106 | `updateGradient` of any layer kind: the outcome is `LearnOutcome`, the weights and bias stay, and the values are `Learned`, including the gradients a throwing layer leaves |
| Networks.ApplyUnit | src/main/java/com/jace/learner/NeuralNetwork.java:84 | `applyGradient` of any layer kind: the outcome is `ApplyOutcome` and the values are `Applied` |
| Networks.RunSticky | src/main/java/com/jace/learner/NeuralNetwork.java:69-80 | once a layer throws, every longer pass throws the same exception |
| Networks.RunStuck | src/main/java/com/jace/learner/NeuralNetwork.java:74-77 | a layer after one that threw is never reached |
| Networks.RunFront | src/main/java/com/jace/learner/NeuralNetwork.java:74-77 | the first layers of a longer network do what they do on their own |
| Networks.RunBack | src/main/java/com/jace/learner/NeuralNetwork.java:74-77 | the later layers are fed what the first ones yield |
| Networks.RunAppend | src/main/java/com/jace/learner/NeuralNetwork.java:69-80 | predicting through two networks joined is predicting through the first, then the second on its result |
| Networks.Seed | src/main/java/com/jace/learner/NeuralNetwork.java:91-92 | `target.copy()` minus the last activation: an empty target or a size mismatch throws; otherwise entry `i` is `target_i - act_i` |
| Networks.ReceivedSticky | src/main/java/com/jace/learner/NeuralNetwork.java:95-98 | once a layer throws, no earlier layer gets any blame |
| Networks.Inputs | src/main/java/com/jace/learner/NeuralNetwork.java:104-108 | `x` goes to the first layer, then each layer's activation to the next |
| Networks.Failing | src/main/java/com/jace/learner/NeuralNetwork.java:83-85 | the index of the first failure: everything before it passed and it failed, or none failed |
| Networks.FirstFailure | src/main/java/com/jace/learner/NeuralNetwork.java:83-85 | the loop's outcome passes exactly when every layer passes |
| Networks.LearnOutcomes | src/main/java/com/jace/learner/NeuralNetwork.java:105-108 | entry `i` is how layer `i`'s `updateGradient` ends on its own |
| Networks.ApplyOutcomes | src/main/java/com/jace/learner/NeuralNetwork.java:83-85 | entry `i` is how layer `i`'s `applyGradient` ends on its own |
| Networks.FeedStep | src/main/java/com/jace/learner/NeuralNetwork.java:74-77 | one more step of the loop of `predict` extends what the pass left in every layer |
| Networks.FedAll | src/main/java/com/jace/learner/NeuralNetwork.java:69-80 | where the loop stops, every layer holds what the pass left it and the result is the whole pass |
| Networks.ActivateAt | src/main/java/com/jace/learner/NeuralNetwork.java:76 | activating layer `i` changes only its activation, and only on success |
| Networks.FeedAt | src/main/java/com/jace/learner/NeuralNetwork.java:75-76 | layer `i` is activated on what the previous layer yields |
| Networks.Feed | src/main/java/com/jace/learner/NeuralNetwork.java:72-79 | the result is the pass `Run` over the values held before; layer `i`'s activation is what the pass left it; parameters and blames stay |
| Networks.HandStep | src/main/java/com/jace/learner/NeuralNetwork.java:95-98 | one more step of the loop of `backPropagate` extends what the pass left in every layer |
| Networks.HandedAll | src/main/java/com/jace/learner/NeuralNetwork.java:95-98 | where the loop stops, every layer holds the blame the pass left it |
| Networks.SetBlameAt | src/main/java/com/jace/learner/NeuralNetwork.java:97 | `setBlame` of layer `i` changes only that layer's blame |
| Networks.HandAt | src/main/java/com/jace/learner/NeuralNetwork.java:96-97 | layer `i` hands its blame back to layer `i - 1`; nothing else changes |
| Networks.HandBack | src/main/java/com/jace/learner/NeuralNetwork.java:91-98 | the outcome is the first exception of the backward pass seeded with target minus last activation; each layer's blame is what the pass left it; activations and parameters stay |
| Networks.HandDown | src/main/java/com/jace/learner/NeuralNetwork.java:95-98 | the loop from the last layer down stops at the first exception, every layer holding what the pass left it |
| Networks.FailingAt | src/main/java/com/jace/learner/NeuralNetwork.java:83-85 | an index before which all passed and at which one failed is the first failure |
| Networks.LearnStep | src/main/java/com/jace/learner/NeuralNetwork.java:105-108 | one more layer of the loop of `updateGradient` extends what the loop has done |
| Networks.LearnedAll | src/main/java/com/jace/learner/NeuralNetwork.java:101-109 | where the loop stops, the layers' values are what `Learns` says |
| Networks.LearnAt | src/main/java/com/jace/learner/NeuralNetwork.java:106 | `updateGradient` of layer `i` changes only that layer, to `Learned`, whether or not it throws |
| Networks.Learn | src/main/java/com/jace/learner/NeuralNetwork.java:104-108 | the layers are updated in order on `Inputs(x, activations)` until the first exception, which is the outcome; the throwing layer holds `Learned`, the gradients it wrote before the throw; activations and blames stay |
| Networks.LearnEach | src/main/java/com/jace/learner/NeuralNetwork.java:105-108 | the loop of `updateGradient` over the layers ends in `Learns`: each layer up to and including the throwing one is `Learned`, the later ones are unchanged |
| Networks.ApplyStep | src/main/java/com/jace/learner/NeuralNetwork.java:83-85 | one more layer of the loop of `updateWeights` extends what the loop has done |
| Networks.AppliedAll | src/main/java/com/jace/learner/NeuralNetwork.java:82-86 | where the loop stops, the layers' values are what `Applies` says |
| Networks.ApplyAt | src/main/java/com/jace/learner/NeuralNetwork.java:84 | `applyGradient` of layer `i` changes only that layer, to `Applied` |
| Networks.Apply | src/main/java/com/jace/learner/NeuralNetwork.java:82-86 | every layer up to the first exception applies its gradients; the outcome is that exception |
| Networks.ApplyEach | src/main/java/com/jace/learner/NeuralNetwork.java:83-85 | the loop of `updateWeights` over the layers |
| Networks.ChainedRun | src/main/java/com/jace/learner/NeuralNetwork.java:69-80 | on layers whose sizes chain, an input of the first layer's size never throws, and each step yields the next size |
| Networks.ChainedReceived | src/main/java/com/jace/learner/NeuralNetwork.java:88-99 | on chained layers, a seed of the last size is handed back to every layer without exception, at that layer's size |
| Networks.ChainedReached | src/main/java/com/jace/learner/NeuralNetwork.java:69-80 | on chained layers every activation after `predict` has its layer's output size |
| Networks.ChainedHanded | src/main/java/com/jace/learner/NeuralNetwork.java:88-99 | on chained layers every blame after `backPropagate` has its layer's output size |
| Networks.ChainedLearns | src/main/java/com/jace/learner/NeuralNetwork.java:101-109 | on chained layers with sized blames and inputs, `updateGradient` never throws and keeps the layers chained |
| Networks.LearnsKeepsParameters | src/main/java/com/jace/learner/NeuralNetwork.java:101-109 | `updateGradient` changes no layer's weights or bias |
| Networks.FitsKept | src/main/java/com/jace/learner/NeuralNetwork.java:101-109 | parameters that fit a layer still fit it once only the gradients changed |
| Networks.ChainedApplies | src/main/java/com/jace/learner/NeuralNetwork.java:82-86 | on chained layers `updateWeights` never throws and keeps the layers chained |
| JaceNetworks.CopiedSnap | src/main/java/com/jace/layer/LinearLayer.java:29-31 | a copied linear layer has none of the parameters; other layers' values are copied as they are |
| JaceNetworks.CopyUnit | src/main/java/com/jace/learner/NeuralNetwork.java:22 | `layer.copy()`: a fresh layer of the same kind and input size, with `CopiedSnap` values |
| JaceNetworks.CopyEach | src/main/java/com/jace/learner/NeuralNetwork.java:22 | fresh copies of all the layers, in order, sharing no object |
| JaceNetworks.NeuralNetwork.constructor | src/main/java/com/jace/learner/NeuralNetwork.java:15-17 | no layers; momentum and learning rate zero |
| JaceNetworks.NeuralNetwork.SetMomentum | src/main/java/com/jace/learner/NeuralNetwork.java:29-31 | only the momentum changes |
| JaceNetworks.NeuralNetwork.SetLearningRate | src/main/java/com/jace/learner/NeuralNetwork.java:33-35 | only the learning rate changes |
| JaceNetworks.NeuralNetwork.AddLayer | src/main/java/com/jace/learner/NeuralNetwork.java:52-54 | the layer is appended; nothing else changes |
| JaceNetworks.NeuralNetwork.IsLinearNetwork | src/main/java/com/jace/learner/NeuralNetwork.java:64-66 | true exactly when there is one layer and it is linear |
| JaceNetworks.NeuralNetwork.Copy | src/main/java/com/jace/learner/NeuralNetwork.java:19-27 | a fresh network of fresh layer copies, in order, with the same momentum and learning rate |
| JaceNetworks.NeuralNetwork.Predict | src/main/java/com/jace/learner/NeuralNetwork.java:69-80 | no layers throws "no layers"; otherwise the pass `Run`, each activation what the pass left it |
| JaceNetworks.NeuralNetwork.BackPropagate | src/main/java/com/jace/learner/NeuralNetwork.java:88-99 | no layers throws; otherwise the backward pass seeded with target minus last activation, each blame what it left |
| JaceNetworks.NeuralNetwork.UpdateGradient | src/main/java/com/jace/learner/NeuralNetwork.java:101-109 | no layers throws; otherwise `Learns` on the inputs `x` then each activation, the throwing layer included |
| JaceNetworks.NeuralNetwork.UpdateWeights | src/main/java/com/jace/learner/NeuralNetwork.java:82-86 | each layer applies its gradients with the network's rate and momentum, as `Applies` states |
| RootNetworks.Sizes | src/main/java/NeuralNetwork.java:55-64 | the first layer's inputs, then each layer's outputs |
| RootNetworks.ActsSizedChain | src/main/java/NeuralNetwork.java:162-174 | activations of their layers' output sizes are sized along the chain |
| RootNetworks.BlamesSizedChain | src/main/java/NeuralNetwork.java:189-200 | blames of their layers' output sizes are sized along the chain |
| RootNetworks.ShapedChained | src/main/java/NeuralNetwork.java:55-64 | layers linked by `addLayer`, with fitting parameters, chain their sizes |
| RootNetworks.Kept | src/main/java/NeuralNetwork.java:176-181 | layers whose parameters keep their shapes stay a valid chain |
| RootNetworks.PredictSized | src/main/java/NeuralNetwork.java:162-174 | on a chain, an input of the first size gives an output of the last size and sized activations |
| RootNetworks.BackSized | src/main/java/NeuralNetwork.java:189-200 | on a chain with sized activations, a target of the last size is never refused and leaves sized blames |
| RootNetworks.InputsSized | src/main/java/NeuralNetwork.java:202-210 | the inputs `updateGradient` feeds a chain have the layers' input sizes |
| RootNetworks.NewLayer | src/main/java/NeuralNetwork.java:42-53 | a linear layer or a tanh layer is made fresh; any other kind throws "no implementation" |
| RootNetworks.Append | src/main/java/NeuralNetwork.java:55-64 | a fitting layer whose inputs are the last layer's outputs keeps the network linked |
| RootNetworks.AppendValid | src/main/java/NeuralNetwork.java:55-64 | a well-formed fitting layer sharing no object with the network keeps it a valid chain |
| RootNetworks.Extend | src/main/java/NeuralNetwork.java:42-64 | the new layer, made fresh, keeps the chain valid; or the refusal |
| RootNetworks.Predicted | src/main/java/NeuralNetwork.java:162-174 | no layers throws; otherwise the pass `Run` |
| RootNetworks.Misclassified | src/main/java/NeuralNetwork.java:105-119 | the count over the first `k` rows is at most `k` |
| RootNetworks.MisclassifiedStays | src/main/java/NeuralNetwork.java:109-116 | once a row throws, the count throws the same exception whatever rows follow |
| RootNetworks.MisclassifiedCounts | src/main/java/NeuralNetwork.java:105-119 | on a chain, with every row of the input size and a label for each, the count never throws |
| RootNetworks.MisclassifiedNext | src/main/java/NeuralNetwork.java:110-115 | the count over one more row: its prediction's exception, a missing label, or the count plus one when the predicted index differs |
| RootNetworks.ChainPredict | src/main/java/NeuralNetwork.java:162-174 | `Predicted`, each activation what the pass left it; on a chain with an input of the first size it never throws |
| RootNetworks.ChainBack | src/main/java/NeuralNetwork.java:189-200 | no layers throws; otherwise the backward pass; on a sized chain with a target of the last size it never throws |
| RootNetworks.ChainLearn | src/main/java/NeuralNetwork.java:202-210 | no layers throws; otherwise `Learns`, the throwing layer included; with sized activations, blames and input it never throws |
| RootNetworks.ChainApply | src/main/java/NeuralNetwork.java:183-187 | every layer applies its gradients, as `Applies` states; none refuses, and the chain stays valid |
| RootNetworks.CountRow | src/main/java/NeuralNetwork.java:110-115 | one row: the count over the rows so far is extended as `Misclassified` states |
| RootNetworks.ChainCount | src/main/java/NeuralNetwork.java:105-119 | the result is `Misclassified` over all the rows; parameters stay |
| RootNetworks.ChainRefine | src/main/java/NeuralNetwork.java:176-181 | predict, back-propagate, update gradients and weights; on a chain with input and target of the right sizes it never throws |
| RootNetworks.NeuralNetwork.constructor | src/main/java/NeuralNetwork.java:14-16 | no layers and no momentum |
| RootNetworks.NeuralNetwork.SetMomentum | src/main/java/NeuralNetwork.java:22-24 | only the momentum changes |
| RootNetworks.NeuralNetwork.Push | src/main/java/NeuralNetwork.java:45-48 | the layer is appended and the network stays valid |
| RootNetworks.NeuralNetwork.AddFirstLayer | src/main/java/NeuralNetwork.java:37-40 | the layers are cleared, then one fresh layer of the kind and sizes is added, or the refusal leaves none |
| RootNetworks.NeuralNetwork.AddLayer | src/main/java/NeuralNetwork.java:55-64 | no layers throws "first add a layer"; otherwise a fresh layer taking the last layer's outputs as inputs is appended, or the refusal leaves the layers |
| RootNetworks.NeuralNetwork.SingleLinear | src/main/java/NeuralNetwork.java:121-124 | passes exactly when there is one layer and it is linear; otherwise "exactly one LayerLinear" |
| RootNetworks.NeuralNetwork.Predict | src/main/java/NeuralNetwork.java:162-174 | `Predicted`; on a chain with an input of the first size, a result of the last size |
| RootNetworks.NeuralNetwork.BackPropagate | src/main/java/NeuralNetwork.java:189-200 | no layers throws; otherwise the backward pass; on a sized chain never refused |
| RootNetworks.NeuralNetwork.UpdateGradient | src/main/java/NeuralNetwork.java:202-210 | no layers throws; otherwise `Learns`, the throwing layer included; never refused with sized values |
| RootNetworks.NeuralNetwork.UpdateWeights | src/main/java/NeuralNetwork.java:183-187 | every layer applies its gradients with the network's momentum; never refused |
| RootNetworks.NeuralNetwork.CountMisclassifications | src/main/java/NeuralNetwork.java:105-119 | the count is `Misclassified` over all the rows; parameters stay |
| RootNetworks.NeuralNetwork.RefineWeights | src/main/java/NeuralNetwork.java:176-181 | no layers throws; on a chain with input and target of the right sizes it never throws |
| Numeric.Scaled | src/main/java/Vector.java:134-137 | `scale(s)`: the same length, entry `i` times `s` |
| Numeric.PlusScaled | src/main/java/Vector.java:139-144 | `addScaled(b, s)`: the same length, entry `i` is `a_i + s·b_i` |
| Numeric.Constant | src/main/java/Vector.java:76-79 | `fill(v)`: every entry is `v` |
| Convolution.Convolved | src/main/java/com/jace/math/Tensor.java:217-320 | the convolution's output has one entry per element of the output dimensions |
| Grids.Filled | src/main/java/Matrix.java:632-637 | `fill(v)`: a `rows × cols` table whose every cell is `v` |
| Grids.Unflatten | src/main/java/Matrix.java:709-724 | cell `(r, c)` is entry `r·cols + c` of the flat values |
| Grids.Transposed | src/main/java/Matrix.java:825-832 | a `cols × rows` table whose cell `(j, i)` is cell `(i, j)` of the original |
| Grids.Times | src/main/java/Matrix.java:855-907 | a `rows × cols` table whose cell `(i, j)` is row `i` of `a` dotted with column `j` of `b` |
| Grids.Identity | src/main/java/Matrix.java:677-682 | an `n × n` table of 1 on the diagonal and 0 elsewhere |
| Grids.PasteBlock | src/main/java/Matrix.java:561-586 | cells inside the destination block come from the matching source cells; all others stay |
| Grids.SwappedColumns | src/main/java/Matrix.java:837-846 | columns `a` and `b` exchanged, every other column kept |
| Grids.Round | src/main/java/Matrix.java:612 | `(int) Math.round`: always an `int`; for `x` within the `int` range it is the integer within a half of `x`, halves rounding up |
| Grids.MathRound | src/main/java/Matrix.java:612 | `Math.round`: the nearest integer, halves up, within the `long` range; below it `Long.MIN_VALUE`, above it `Long.MAX_VALUE` |
| Grids.IntOfLong | src/main/java/Matrix.java:612 | the `(int)` narrowing: an `int` congruent to the value modulo 2^32, the value itself when it already is an `int` |
| Grids.RoundBeyondInt | src/main/java/Matrix.java:612 | `-1e308` clamps to `Long.MIN_VALUE` and narrows to 0; `2^31` narrows to `Integer.MIN_VALUE` |
| Grids.Labels | src/main/java/Matrix.java:610-613 | one label per row, the rounded first cell |
| Grids.MaxLabel | src/main/java/Matrix.java:606-615 | at least every label, and either 0 or one of the labels |
| Grids.OneHot | src/main/java/Matrix.java:618-625 | a `|labels| × width` table with 1 in each row's label column and 0 elsewhere |
| Grids.Supplied | src/main/java/Matrix.java:639-645 | `n` successive draws of the supplier, starting at draw `first` |

## Left out

- Randomness, and the training loops built on it, are not modelled: `train`, `trainStochastic`, `trainMiniBatch`, `shuffleData`, `shuffleRows`, `shuffleMatrices` and the random initialisers. `initialize` of the linear layers and the convolution layer takes its draws from a supplied source instead, and is modelled that way.
- The network-level `initialize` (com.jace) and `initializeWeights` (root) are not modelled; each only forwards to the layers' own `initialize`.
- The body of root `crossValidation`, and the ordinary-least-squares and SVD solvers it reaches through `trainLinear`, are not modelled: they are floating-point numerics (`singularValueDecompositionHelper`, `pseudoInverse`, `ordinaryLeastSquares`). Only the single-linear-layer guard of both methods is modelled, as `RootNetworks.NeuralNetwork.SingleLinear`.
- I/O is not modelled: ARFF loading and saving, `printRow`, `printTopology`, output streams, charts, files and JSON.
- Printing is not modelled: `toString` of vectors, matrices and networks, and `Vector.marshal`/`Matrix.marshal`.
- `Vector.normalize`, `Matrix.equals`, `Matrix.sort`, `errorAgainst`, `mostCommonValue`, and the row insertion and removal helpers of `Matrix` are not modelled. None of them is used by the layers or the networks.
- `getLayers()` of the com.jace network hands out the network's own list, so a caller can change the network through it. That aliasing is not modelled: the layers are a `seq` field.
- Layer parameters are values (`Table`, `seq<real>`, `Option`), not shared `Vector`/`Matrix` objects. A caller that keeps a reference to a weight object given to `setWeights` and changes it later is not modelled.
- Sizes are `nat`. Java's negative array sizes, and the `NegativeArraySizeException` they throw, are not modelled.
- `tanh` is a function supplied to the tanh layers and is not defined. The backward rule uses only the stored activation.
- `Strings.join(Vector, …)` renders each element with a supplied `show` function. Java's `Double.toString` is not modelled.
- The `Assignment5` layer classes are not modelled.
- The no-op gradient methods are not modelled as members: `initialize`, `resetGradient`, `updateGradient` and `applyGradient` of the activation layers and of the pooling layer. The network passes treat them as doing nothing and passing.
- The com.jace `Vector`, `Matrix` and `Json` sources are not part of this model. Where the com.jace code calls them, the root `Vector` and `Matrix` semantics are used, with row-major flat indexing for matrices. The one exception is `reduce()` of the convolution layer's blame slices, listed under "## Findings".
- `ConvolutionLayers.ConvolutionLayer.UpdateGradient`: the bias gradient is set to each blame slice's own sum, as the layer's test expects, not to `reduce()` of the slice view as written, which sums the whole blame. The same holds for `ConvolutionLayers.GradientSteps`, `ConvolutionLayers.SetSliceSums`, `ConvolutionLayers.SliceSums`, `ConvolutionLayers.SliceSumsPrefix` and `ConvolutionLayers.SliceSumsTotal`. The as-written loop is `ConvolutionLayers.SliceReducesAsWritten`.
- The root `LayerType` enum is not part of this model. Its constants are taken to be those of `com.jace.layer.Layer.LayerType`.
- `parseAttribute` is modelled only from the point where the value list is known (`ColumnMetadata.Metadata.ParseAttribute`). The tokenising of the ARFF line uses `Json.StringParser`, which is not part of this model.
- `Convolution.Convolve`: requires stride 1 and shapes the loop nest handles (`Shape.Centred`): at least one dimension, no empty dimension, padding non-negative and smaller than the filter, and the last output position overlapping the input. Shapes outside these are not modelled. On them, the Java loop reads outside the tensors or runs with a stride other than 1.
- `Tensors.Tensor.Convolve`: requires `Centred` shapes whenever the arities agree, and an output buffer distinct from the input and the filter; aliasing outputs are not modelled.
- `RootTensors.Tensor.Convolve`: the same shape and non-aliasing preconditions as `Tensors.Tensor.Convolve`.
- `Tensors.Tensor.ConvolvePerFilter`: requires `Centred` shapes for each per-filter slice and output buffers distinct from the input and the filter, as `Tensors.Tensor.Convolve`; other shapes and aliasing outputs are not modelled.
- `Tensors.Tensor.ConvolvePerLayer`: the same per-slice shape and non-aliasing preconditions as `Tensors.Tensor.ConvolvePerFilter`.
- `ConvolutionLayers.ConvolutionLayer.Activate`: inputs, and the blame and activation that `BackPropagate` and `UpdateGradient` pass through `asTensor`, are taken as plain vectors (`seq<real>`). An argument that is already a `Tensor` whose element count differs from the layer's dimensions makes Java throw the "different dimensions" `IllegalArgumentException`; the model reports that case as the element-count mismatch instead.
- `Matrices.Matrix.CopyBlock`: requires `that` to be another matrix with its own metadata (`Separate`). A copy of a matrix into itself, where later cells and metadata columns are read after earlier iterations of the same call have overwritten them, is not modelled.
- `ConvolutionLayers.ConvolutionLayer.Activate`: requires the layer's dimensions to be ones the convolution loop handles (`ForwardSupported`); `BackPropagate` and `UpdateGradient` likewise (`BackwardSupported`, `GradientSupported`).
- `JaceNetworks.NeuralNetwork.AddLayer`: requires that the new layer shares no object with the layers already held. Adding the same layer object twice is not modelled. `RootNetworks.NeuralNetwork` always creates fresh layers, so the requirement holds there by construction.
- `RootNetworks.NeuralNetwork.CountMisclassifications`: the features and labels are given as sequences of rows rather than a `Matrix`. Root `Vector.java` has no `maxIndex`, so it is a parameter.
- `RootNetworks.NeuralNetwork.RefineWeights`: states only that an empty network throws, and that a chained network given an input and a target of the right sizes is never refused. The parameters after the four passes are what the contracts of `Predict`, `BackPropagate`, `UpdateGradient` and `UpdateWeights`, applied in turn, say. They are not restated as one formula. The same holds for `RootNetworks.ChainRefine`, which holds its body.

## Findings

| source | as written | input that shows it | evidently intended | confidence | as-written member | corrected member |
|---|---|---|---|---|---|---|
| src/main/java/com/jace/math/Metadata.java:83-89 | `copyAttributeToMetadata` copies the name and the attribute-to-value map of the source column, but takes the value-to-attribute map from the source metadata's column at the destination index | one metadata with columns `colour` (enumerated, `red ↔ 0`) and `size` (continuous), copying column 0 into column 1: the new column maps `red` to 0 but 0 to nothing | both maps come from the source column, so the copy is an enumerated column again | not executed | ColumnMetadata.CopyAsWrittenBreaksEnumeration | ColumnMetadata.CopyColumnKeepsEnumeration |
| src/main/java/com/jace/math/Metadata.java:28-34 | the copy constructor calls `addAll` on the two map lists before anything has created them | any metadata: `copy()` throws a null dereference | a new object with the same file name, names and maps | not executed | ColumnMetadata.Metadata.CopyMetadataAsWritten | ColumnMetadata.Metadata.CopyMetadata |
| src/main/java/ConvolutionLayer.java:145-150 | each bias-gradient entry is set to `reduce()` of blame slice `i`; `splitByLastDimension` makes the slices views of the blame's backing array (com/jace/math/Tensor.java:117-118), and `reduce()` sums the whole backing array (Vector.java:166-172), so every entry gets the sum of the whole blame | blame `[1,2,3,4]` with dimensions `[2,2]`: the bias gradient becomes `[10,10]` instead of `[3,7]` | each entry is the sum of its own slice, as ConvolutionLayerTest.java:81 expects | not executed | ConvolutionLayers.SliceReducesDiffer | ConvolutionLayers.SliceSumsTotal |

`Matrices.Matrix.CopyBlock` keeps the copy as written, because that is what a caller of `copyBlock` observes, including the `IndexOutOfBounds` it can throw; every copy made by `matrixFold` and `matrixWithoutFold` copies column `c` to column `c`, where `ColumnMetadata.AlignedCopiesAsIntended` shows that the as-written and the corrected copies agree. `ColumnMetadata.Metadata.CopyAttributeTo` is the corrected operation itself.
