# MERA tensor-graph IR, modelled in Dafny

This project models the core of the MERA IR headers:

- **Element types** (`include/mera/ir/type.h`, module `IrType`): the five-value
  `DataType` and its constant name/byte-width table, with `ToString` and `SizeOf`.
- **Layouts and shapes** (`include/mera/ir/shape.h`, module `IrShape`): a `Layout`
  is an ordered list of one-character axis tags. A `Shape` binds an extent vector
  to a layout and caches `rank` and `size`. The module covers construction, axis
  lookup (`AxisOf`, `DimOf`, `DimOf` with a default), alignment padding
  (`PadDimTo`), fixed-arity unpacking (`Unpack`) and re-expression under a
  superset layout (`UnpackAs`, `ReshapeAs`). It also has the two `==`/`!=` pairs
  and the predefined layouts and `s_one`.
- **Graph builder and module** (`include/mera/mdna_ir.h`, module `MdnaIr`):
  - the header's own older 4-value `DataType` and layout-free `Shape` record;
  - the closed set of 28 operator kinds as one datatype;
  - the append-only `Graph`, which mints output tensors named `prefix + decimal(counter)`;
  - the `Module` of named graphs;
  - the `QuantizedConv2d` classification predicates.

  Module `Decimal` models `std::to_string` of the id counter together with a
  reader that inverts it. Module `Wrappers` holds `Option` and `Result`.

Every exception the headers throw becomes an `Err` value.
`IrShape.ShapeError` lists the shape failures and `MdnaIr.ModuleError` the module failures.

The two headers carry different schema revisions of `DataType` and `Shape`.
They are kept in separate modules and are not merged.

Facts about the headers that shape the model:
- `DimOf`'s defensive length check fails with `RankMismatch`, because the code's
  message reports that the extent count does not match the layout.
- The `Graph` of `mdna_ir.h` holds only its operator list and its id counter.
- `PadDimTo` throws `std::out_of_range` from `shape.at(axis)` when the layout
  is longer than the extents. The model reports this as `AxisOutOfRange`.
- `UnpackAs` of a malformed shape whose layout is empty still succeeds with all
  ones. It calls `DimOf` only for target tags the source layout has.

## Model

| member | source | states |
|---|---|---|
| `IrType.Ordinal` | include/mera/ir/type.h:22-34 | `(int)t` is a valid table index, and the row there describes `t` |
| `IrType.TypeMapIndexed` | include/mera/ir/type.h:28-34 | row i of the table holds the i-th enumerator, so indexing by `(int)t` is a correct total lookup |
| `IrType.ToString` | include/mera/ir/type.h:28-39 | the table lookup yields "UInt8", "Int8", "Int32", "Float32", "BrainFloat16" respectively |
| `IrType.SizeOf` | include/mera/ir/type.h:28-44 | the table lookup yields 1, 1, 4, 4, 2 bytes respectively, always one of {1, 2, 4} |
| `IrType.ToStringInjective` | include/mera/ir/type.h:29-33 | distinct types have distinct names |
| `IrShape.AsStr` | include/mera/ir/shape.h:34-40 | the diagnostic text has one character per tag, in layout order |
| `IrShape.LayoutHasDim` | include/mera/ir/shape.h:45-47 | true exactly when some position holds the tag |
| `IrShape.IndexOf` | include/mera/ir/shape.h:135-139 | the scan stops at the first position holding the tag; no earlier position holds it; it runs off the end exactly when the tag is absent |
| `IrShape.LayoutEquals` | include/mera/ir/shape.h:50-60 | the loop answers true iff lengths agree and tags agree at every position, i.e. iff the layouts are equal |
| `IrShape.LayoutDiffers` | include/mera/ir/shape.h:62-64 | `!=` is true iff the layouts differ |
| `IrShape.MakeShape` | include/mera/ir/shape.h:92-100 | fails with RankMismatch iff dims and layout differ in length; otherwise rank is the number of dims, size is the product of dims (empty product 1), dims and layout are kept |
| `IrShape.DefaultShape` | include/mera/ir/shape.h:103 | the default shape is well formed, with dims `[1]`, layout `x`, rank 1, size 1 |
| `IrShape.SOneIsDefault` | include/mera/ir/shape.h:212 | `s_one` is what the constructor builds from `[1]` and `x`, and equals the default shape |
| `IrShape.HasDim` | include/mera/ir/shape.h:157 | delegates to the layout: true iff the tag is in it |
| `IrShape.AxisOf` | include/mera/ir/shape.h:134-141 | succeeds iff the tag is present, giving its first position; otherwise DimensionNotFound |
| `IrShape.DimOf` | include/mera/ir/shape.h:111-122 | RankMismatch when dims and layout lengths differ, DimensionNotFound when the tag is absent, otherwise `dims[AxisOf(t)]` |
| `IrShape.DimOfOr` | include/mera/ir/shape.h:127-129 | the default when the tag is absent, otherwise `DimOf(t)`; never fails when dims and layout lengths agree |
| `IrShape.RoundUpIsLeastMultiple` | include/mera/ir/shape.h:148 | `((d + k - 1) / k) * k` is a multiple of k, at least d, below d + k, and no larger than any multiple of k that is at least d |
| `IrShape.RoundUpIdempotent` | include/mera/ir/shape.h:148 | rounding an already rounded extent changes nothing |
| `IrShape.PadDim` | include/mera/ir/shape.h:146-152 | fails iff the tag is absent (DimensionNotFound) or its axis is past the extents (AxisOutOfRange); otherwise only the extent at `AxisOf(t)` changes, to the least multiple of k at or above it, while rank and layout are kept and size is the new product |
| `IrShape.PadDimTo` | include/mera/ir/shape.h:146-152 | the running-product loop produces exactly `PadDim`'s shape, size included |
| `IrShape.PadDimIdempotent` | include/mera/ir/shape.h:146-152 | a second `PadDimTo` with the same tag and alignment is a no-op |
| `IrShape.PadDimKeepsWellFormed` | include/mera/ir/shape.h:146-152 | padding a well-formed shape yields a well-formed shape |
| `IrShape.PadDimNeverShrinks` | include/mera/ir/shape.h:148-151 | padding never decreases the size of a well-formed shape with non-negative extents |
| `IrShape.PadImageChannelsExample` | include/mera/ir/shape.h:92-152 | NCHW `[1,3,224,224]` has rank 4, size 150528 and C extent 3; padding C to 8 gives `[1,8,224,224]` with size 401408 |
| `IrShape.Unpack` | include/mera/ir/shape.h:162-172 | fails with UnpackArityMismatch unless `rank == N`; otherwise returns the first N extents, which for a well-formed shape are all of them |
| `IrShape.BroadcastDims` | include/mera/ir/shape.h:190-192 | position i holds the source extent for target tag i, or 1 if the source lacks it; fails only when a present tag meets mismatched dims and layout |
| `IrShape.UnpackAs` | include/mera/ir/shape.h:178-194 | UnpackArityMismatch iff the target layout does not have N tags, else LayoutIncompatible iff a source tag is missing from the target; when extents and tags agree in number these are the only failures, and entry i is `DimOf(target[i])` or 1 |
| `IrShape.UnpackAsPreservesExtent` | include/mera/ir/shape.h:184-192 | every source tag's extent reappears at that tag's position in the target |
| `IrShape.ReshapeAs` | include/mera/ir/shape.h:199-203 | fails exactly when `UnpackAs` does; otherwise a well-formed shape under the target layout with rank N, the unpacked extents, and their product as size |
| `IrShape.ShapeEquals` | include/mera/ir/shape.h:206-208 | fieldwise comparison of dims, rank, size and layout; true iff the shapes are equal |
| `IrShape.ShapeDiffers` | include/mera/ir/shape.h:210 | `!=` is true iff the shapes differ |
| `Decimal.NatToString` | include/mera/mdna_ir.h:431 | the counter's text is non-empty and all digits; it is one digit exactly below 10; it starts with '0' only for 0, so it has no leading zero |
| `Decimal.ParseNatToString` | include/mera/mdna_ir.h:431 | reading the counter's decimal text back gives the counter |
| `Decimal.NatToStringInjective` | include/mera/mdna_ir.h:431 | distinct counters have distinct decimal texts |
| `MdnaIr.Ordinal` | include/mera/mdna_ir.h:28-38 | `int(t)` is a valid index into this revision's table, and the row there describes `t` |
| `MdnaIr.TypeMapIndexed` | include/mera/mdna_ir.h:30-38 | row i of this revision's table holds the i-th enumerator |
| `MdnaIr.OutputOf` | include/mera/mdna_ir.h:412-415 | every operator kind except the sink produces a tensor |
| `MdnaIr.SamePrefixIdsDistinct` | include/mera/mdna_ir.h:431 | two ids minted with one prefix from different counter values differ |
| `MdnaIr.DifferentPrefixIdsCanCollide` | include/mera/mdna_ir.h:431 | ids are not globally unique: prefix "A1" at counter 0 and prefix "A" at counter 10 both give "A10" |
| `MdnaIr.IdsForSamePrefixDistinct` | include/mera/mdna_ir.h:431 | among the ids a graph mints, two minted with the same prefix never coincide |
| `MdnaIr.Graph.constructor` | include/mera/mdna_ir.h:426-459 | a new graph has no operators and counter 0 |
| `MdnaIr.Graph.Add` | include/mera/mdna_ir.h:428-434 | returns a tensor with the given type and shape and id `prefix + decimal(old counter)`; appends exactly one operator, which holds that tensor as its output when the caller supplies every field before it; earlier operators are kept; the counter grows by 1 |
| `MdnaIr.Graph.AddOutput` | include/mera/mdna_ir.h:436-438 | appends exactly one sink listing the given tensors in order; the counter is unchanged and no tensor is minted |
| `MdnaIr.Graph.AddFloatVec` | include/mera/mdna_ir.h:440-444 | appends a FloatVecConstant holding the values; its tensor is Float32 with shape `{[n], 1, n}` and prefix "FloatVecConstant", which is recorded as the mint's prefix |
| `MdnaIr.Graph.AddInt32Vec` | include/mera/mdna_ir.h:446-450 | appends an Int32VecConstant holding the values; its tensor is Int32 with shape `{[n], 1, n}` and prefix "Int32VecConstant", which is recorded as the mint's prefix |
| `MdnaIr.Graph.AddInt8Vec` | include/mera/mdna_ir.h:452-456 | appends an Int8VecConstant holding the values; its tensor is Int8 with shape `{[n], 1, n}` and prefix "Int8VecConstant", which is recorded as the mint's prefix |
| `MdnaIr.Graph.NoIdReuse` | include/mera/mdna_ir.h:428-434 | no two tensors a graph produced under the same prefix share an id, however many were added |
| `MdnaIr.Module.constructor` | include/mera/mdna_ir.h:462-463 | a new module has no functions |
| `MdnaIr.Module.AddFunction` | include/mera/mdna_ir.h:465-470 | fails with DuplicateFunction iff the name exists, leaving the map unchanged; otherwise maps the name to a fresh empty graph and keeps every other entry |
| `MdnaIr.Module.GetFunction` | include/mera/mdna_ir.h:472 | FunctionNotFound iff the name is absent, otherwise the graph stored under it |
| `MdnaIr.GetInputChannels` | include/mera/mdna_ir.h:219-221 | the input-channel count is the weight's second extent; needs at least two extents |
| `MdnaIr.IsDepthwiseConv` | include/mera/mdna_ir.h:219-225 | depthwise implies more than one group, groups equal to output channels, and one input channel (`weight.shape.shape[1]`); `ConvKindsPartition` proves the converse, so it holds exactly when all three do |
| `MdnaIr.IsGroupConv` | include/mera/mdna_ir.h:227-229 | a grouped convolution is neither depthwise nor ungrouped |
| `MdnaIr.IsPointwiseConv` | include/mera/mdna_ir.h:231-233 | true iff there is exactly one group |
| `MdnaIr.ConvKindsPartition` | include/mera/mdna_ir.h:219-233 | depthwise holds exactly when there is more than one group, groups equal output channels and the weight has one input channel; grouped holds exactly when there is more than one group and the depthwise conditions fail; so depthwise and grouped are never both true, with more than one group exactly one of them holds, and with fewer than one group none of the three holds |
| `MdnaIr.ConvThenOutput` | include/mera/mdna_ir.h:428-438 | one convolution `Add` and one `AddOutput` on a new graph leave exactly two records: the convolution producing "Conv2d0", then the sink naming it |
| `MdnaIr.DuplicateFunctionScenario` | include/mera/mdna_ir.h:465-472 | adding "f" twice fails the second time, and looking up a missing name fails |

## Left out

- Binary encoding and decoding (`NOP_STRUCTURE`) belong to an external serialization library. No round-trip is modelled. `next_id_` is declared after `NOP_STRUCTURE(Graph, operators)` and is not serialized, so a decoded graph restarts its counter at 0 (not modelled).
- The stream printers and the empty-variant check of `include/mera/mdna_ir_io.h` are output formatting and are not modelled.
- The compile, execute, quantize, interpreter, simulate and block headers declare interfaces without bodies. They are not part of this model.
- Floating-point attributes (Clip bounds, Pad value, LeakyReLU slope, FloatVecConstant values) are carried as opaque bit patterns and never interpreted.
- C++ `int` overflow is not modelled: extents, `size`, `rank`, the id counter and `int(values.size())` are mathematical integers.
- IrShape.PadDimTo: requires non-negative extents. For a negative extent, the source's mixed `int`/`size_t` rounding wraps around. It also requires an alignment above 0, because 0 divides by zero.
- IrShape.PadDim: same preconditions as `PadDimTo`.
- IrShape.PadDimTo (in place): the source overwrites the extent inside the `Shape` object. The model returns the updated shape value instead. Shapes are plain values, so no aliasing is lost.
- IrShape.Unpack: requires that `rank == N` implies at least N extents. The source reads `shape[i]` unchecked after comparing only the `rank` field, so a shorter extent vector is undefined behaviour.
- MdnaIr.GetInputChannels, `MdnaIr.IsDepthwiseConv`, `MdnaIr.IsGroupConv`: require two weight extents whenever evaluation reaches `weight.shape.shape[1]`, which the source reads unchecked.
- The fixed-size `std::array<int, N>` results of `Unpack`/`UnpackAs` are sequences of length N. The element accessor `Shape::at` is modelled only where `PadDimTo` uses it.
- MdnaIr.Graph.Add: the C++ template takes the operator kind and its leading fields. The model takes a function from the minted tensor to the operator. It requires (`Builds`) that the tensor lands in the operator's `output` field. That holds only when the caller supplies every field before `output`. C++ also compiles a call with too few arguments, such as `Add<ReLU>(name, type, shape)`, which puts the minted tensor in `input` and leaves `output` empty. The model excludes such calls, so the tensor-in-output property of `Add` is assumed, not proved.
- The Graph does not check that an operator's inputs were produced earlier, and it allows several sinks. Neither is enforced in the source, so nothing is modelled for them.
