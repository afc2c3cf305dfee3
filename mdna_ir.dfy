/** The graph IR of include/mera/mdna_ir.h: its own (older) element types and
    shape record, the closed set of operator kinds, the append-only Graph
    builder that mints output tensors, and the Module of named graphs. */
module MdnaIr {
  import opened Wrappers
  import Decimal

  /* ------------------------------------------------------------ Values */

  /** The four element types of this schema revision. */
  datatype DataType = UInt8 | Int8 | Int32 | Float32

  datatype TypeEntry = TypeEntry(t: DataType, name: string)

  const TypeMap: seq<TypeEntry> := [
    TypeEntry(UInt8, "UInt8"),
    TypeEntry(Int8, "Int8"),
    TypeEntry(Int32, "Int32"),
    TypeEntry(Float32, "Float32")
  ]

  /** `int(t)`, the index the printers use into the table. */
  function Ordinal(t: DataType): (i: nat)
    ensures i < |TypeMap|
    ensures TypeMap[i].t == t
  {
    match t
    case UInt8 => 0
    case Int8 => 1
    case Int32 => 2
    case Float32 => 3
  }

  /** Row i of the table describes the i-th enumerator. */
  lemma TypeMapIndexed(i: nat)
    requires i < |TypeMap|
    ensures Ordinal(TypeMap[i].t) == i
  {
  }

  newtype int8 = x: int | -0x80 <= x < 0x80
  newtype int32 = x: int | -0x8000_0000 <= x < 0x8000_0000

  /** Floating-point attributes are carried as their bit patterns and never
      interpreted. */
  datatype Float32Bits = Float32Bits(bits: bv32)
  datatype Float64Bits = Float64Bits(bits: bv64)

  /** The shape record of this revision: extents, rank and size, no layout. */
  datatype Shape = Shape(shape: seq<int>, rank: int, size: int)

  datatype Dilations = Dilations(h: int, w: int)
  datatype Padding = Padding(top: int, bottom: int, left: int, right: int)
  datatype Strides = Strides(h: int, w: int)

  /** A graph edge: element type, shape and the id its producer minted. */
  datatype Tensor = Tensor(dtype: DataType, shape: Shape, id: string)

  /** The closed set of operator kinds, in declaration order. Every kind but
      the sink `OutputNode` ends with the tensor it produces, `output`. */
  datatype Operator =
    | Var(output: Tensor)
    | FloatVecConstant(floatValues: seq<Float32Bits>, output: Tensor)
    | Int32VecConstant(int32Values: seq<int32>, output: Tensor)
    | ReLU(input: Tensor, output: Tensor)
    | AddOp(lhs: Tensor, rhs: Tensor, output: Tensor)
    | Quantize(input: Tensor, outputScale: Tensor, outputZeroPoint: Tensor, axis: int, output: Tensor)
    | Dequantize(input: Tensor, inputScale: Tensor, inputZeroPoint: Tensor, output: Tensor)
    | Conv2d(dilations: Dilations, padding: Padding, strides: Strides, groups: int, outputChannels: int,
             input: Tensor, weight: Tensor, output: Tensor)
    | Clip(minValue: Float32Bits, maxValue: Float32Bits, input: Tensor, output: Tensor)
    | QuantizedConv2d(dilations: Dilations, padding: Padding, strides: Strides, groups: int, outputChannels: int,
                      input: Tensor, weight: Tensor, inputScale: Tensor, inputZeroPoint: Tensor,
                      weightScale: Tensor, weightZeroPoint: Tensor, output: Tensor)
    | QuantizedAdd(lhs: Tensor, rhs: Tensor, lhsScale: Tensor, lhsZeroPoint: Tensor, rhsScale: Tensor,
                   rhsZeroPoint: Tensor, outputScale: Tensor, outputZeroPoint: Tensor, output: Tensor)
    | QuantizedMul(lhs: Tensor, rhs: Tensor, lhsScale: Tensor, lhsZeroPoint: Tensor, rhsScale: Tensor,
                   rhsZeroPoint: Tensor, outputScale: Tensor, outputZeroPoint: Tensor, output: Tensor)
    | Requantize(input: Tensor, inputScale: Tensor, inputZeroPoint: Tensor, outputScale: Tensor,
                 outputZeroPoint: Tensor, output: Tensor)
    | BiasAdd(data: Tensor, bias: Tensor, output: Tensor)
    | Cast(input: Tensor, output: Tensor)
    | Pad(input: Tensor, padWidth: Padding, padValue: Float64Bits, output: Tensor)
    | Int8VecConstant(int8Values: seq<int8>, output: Tensor)
    | Upsampling(input: Tensor, inputScale: Tensor, inputZeroPoint: Tensor, resizeMethod: string,
                 coordinateTransformationMode: string, output: Tensor)
    | OutputNode(outputs: seq<Tensor>)
    | MaxPool2d(input: Tensor, poolHeight: int, poolWidth: int, strides: Strides, padding: Padding,
                output: Tensor)
    | LeakyReLU(input: Tensor, inputScale: Tensor, inputZeroPoint: Tensor, outputScale: Tensor,
                outputZeroPoint: Tensor, negativeSlope: Float64Bits, output: Tensor)
    | SiLU(input: Tensor, inputScale: Tensor, inputZeroPoint: Tensor, sigmoidScale: Tensor,
           sigmoidZeroPoint: Tensor, outputScale: Tensor, outputZeroPoint: Tensor, output: Tensor)
    | HSwish(input: Tensor, inputScale: Tensor, inputZeroPoint: Tensor, outputScale: Tensor,
             outputZeroPoint: Tensor, output: Tensor)
    | Fc(input: Tensor, weights: Tensor, inputScale: Tensor, inputZeroPoint: Tensor, weightScale: Tensor,
         weightZeroPoint: Tensor, bias: Tensor, outputScale: Tensor, outputZeroPoint: Tensor, output: Tensor)
    | AvgPooling2d(input: Tensor, output: Tensor)
    | Mean(input: Tensor, inputScale: Tensor, inputZeroPoint: Tensor, outputScale: Tensor,
           outputZeroPoint: Tensor, output: Tensor)
    | Concatenate(inputs: seq<Tensor>, axis: int, output: Tensor)
    | UpsamplingFp(input: Tensor, resizeMethod: string, coordinateTransformationMode: string, output: Tensor)

  /** The tensor an operator produces; the sink produces none. */
  function OutputOf(op: Operator): (r: Option<Tensor>)
    ensures r.None? <==> op.OutputNode?
  {
    if op.OutputNode? then None else Some(op.output)
  }

  /** `Op{args..., result}`: a kind whose last aggregate field receives the
      minted tensor. */
  ghost predicate Builds(make: Tensor -> Operator)
  {
    forall t :: OutputOf(make(t)) == Some(t)
  }

  /* --------------------------------------------------------- Tensor ids */

  /** `name + std::to_string(counter)`. */
  function MintId(prefix: string, counter: nat): string
  {
    prefix + Decimal.NatToString(counter)
  }

  /** Ids minted under one prefix from different counters never coincide. */
  lemma SamePrefixIdsDistinct(prefix: string, a: nat, b: nat)
    requires a != b
    ensures MintId(prefix, a) != MintId(prefix, b)
  {
    if MintId(prefix, a) == MintId(prefix, b) {
      assert MintId(prefix, a)[|prefix|..] == Decimal.NatToString(a);
      assert MintId(prefix, b)[|prefix|..] == Decimal.NatToString(b);
      Decimal.NatToStringInjective(a, b);
    }
  }

  /** Across prefixes ids can collide: "A1" with counter 0 and "A" with counter 10. */
  lemma DifferentPrefixIdsCanCollide()
    ensures MintId("A1", 0) == MintId("A", 10)
  {
    assert Decimal.NatToString(10) == Decimal.NatToString(1) + [Decimal.DigitChar(0)];
  }

  /** The ids of the produced tensors, in operator order; sinks are skipped. */
  function MintedIds(ops: seq<Operator>): (ids: seq<string>)
    ensures |ids| <= |ops|
  {
    if ops == [] then []
    else
      var last := ops[|ops| - 1];
      MintedIds(ops[..|ops| - 1]) + (if last.OutputNode? then [] else [last.output.id])
  }

  /** The ids a graph has minted when the k-th mint used prefix `prefixes[k]`. */
  function IdsFor(prefixes: seq<string>): (ids: seq<string>)
    ensures |ids| == |prefixes|
  {
    if prefixes == [] then []
    else IdsFor(prefixes[..|prefixes| - 1]) + [MintId(prefixes[|prefixes| - 1], |prefixes| - 1)]
  }

  lemma {:induction false} IdsForAt(prefixes: seq<string>, i: nat)
    requires i < |prefixes|
    ensures IdsFor(prefixes)[i] == MintId(prefixes[i], i)
  {
    if i < |prefixes| - 1 {
      IdsForAt(prefixes[..|prefixes| - 1], i);
    }
  }

  /** Two mints with the same prefix never produce the same id. */
  lemma IdsForSamePrefixDistinct(prefixes: seq<string>, i: nat, j: nat)
    requires i < |prefixes| && j < |prefixes| && i != j && prefixes[i] == prefixes[j]
    ensures IdsFor(prefixes)[i] != IdsFor(prefixes)[j]
  {
    IdsForAt(prefixes, i);
    IdsForAt(prefixes, j);
    SamePrefixIdsDistinct(prefixes[i], i, j);
  }

  /* ------------------------------------------------------------- Graph */

  /** A function body: the operators in insertion order and the id counter.
      `prefixes` records the name prefix of every mint, in counter order. */
  class Graph {
    var operators: seq<Operator>
    var nextId: nat
    ghost var prefixes: seq<string>

    /** The k-th produced tensor carries the id minted from counter k. */
    ghost predicate Valid()
      reads this
    {
      nextId == |prefixes| && MintedIds(operators) == IdsFor(prefixes)
    }

    constructor ()
      ensures Valid()
      ensures operators == [] && nextId == 0 && prefixes == []
    {
      operators := [];
      nextId := 0;
      prefixes := [];
    }

    /** `Add<Op>(name, type, shape, args...)`: mint a tensor, append the
        operator that produces it, return the tensor. */
    method Add(prefix: string, dtype: DataType, shape: Shape, make: Tensor -> Operator) returns (result: Tensor)
      requires Valid() && Builds(make)
      modifies this
      ensures Valid()
      ensures result == Tensor(dtype, shape, MintId(prefix, old(nextId)))
      ensures operators == old(operators) + [make(result)]
      ensures OutputOf(operators[|operators| - 1]) == Some(result)
      ensures nextId == old(nextId) + 1
      ensures prefixes == old(prefixes) + [prefix]
    {
      result := Tensor(dtype, shape, MintId(prefix, nextId));
      var op := make(result);
      assert OutputOf(op) == Some(result);
      ghost var before := operators;
      operators := operators + [op];
      assert operators[..|operators| - 1] == before;
      ghost var oldPrefixes := prefixes;
      prefixes := prefixes + [prefix];
      assert prefixes[..|prefixes| - 1] == oldPrefixes;
      nextId := nextId + 1;
    }

    /** `AddOutput(tensors)`: append the sink listing the function's results. */
    method AddOutput(outputTensors: seq<Tensor>)
      requires Valid()
      modifies this
      ensures Valid()
      ensures operators == old(operators) + [OutputNode(outputTensors)]
      ensures nextId == old(nextId) && prefixes == old(prefixes)
    {
      ghost var before := operators;
      operators := operators + [OutputNode(outputTensors)];
      assert operators[..|operators| - 1] == before;
    }

    method AddFloatVec(values: seq<Float32Bits>) returns (result: Tensor)
      requires Valid()
      modifies this
      ensures Valid()
      ensures result == Tensor(Float32, Shape([|values|], 1, |values|), MintId("FloatVecConstant", old(nextId)))
      ensures operators == old(operators) + [FloatVecConstant(values, result)]
      ensures nextId == old(nextId) + 1
      ensures prefixes == old(prefixes) + ["FloatVecConstant"]
    {
      var size := |values|;
      result := Add("FloatVecConstant", Float32, Shape([size], 1, size), t => FloatVecConstant(values, t));
    }

    method AddInt32Vec(values: seq<int32>) returns (result: Tensor)
      requires Valid()
      modifies this
      ensures Valid()
      ensures result == Tensor(Int32, Shape([|values|], 1, |values|), MintId("Int32VecConstant", old(nextId)))
      ensures operators == old(operators) + [Int32VecConstant(values, result)]
      ensures nextId == old(nextId) + 1
      ensures prefixes == old(prefixes) + ["Int32VecConstant"]
    {
      var size := |values|;
      result := Add("Int32VecConstant", Int32, Shape([size], 1, size), t => Int32VecConstant(values, t));
    }

    method AddInt8Vec(values: seq<int8>) returns (result: Tensor)
      requires Valid()
      modifies this
      ensures Valid()
      ensures result == Tensor(Int8, Shape([|values|], 1, |values|), MintId("Int8VecConstant", old(nextId)))
      ensures operators == old(operators) + [Int8VecConstant(values, result)]
      ensures nextId == old(nextId) + 1
      ensures prefixes == old(prefixes) + ["Int8VecConstant"]
    {
      var size := |values|;
      result := Add("Int8VecConstant", Int8, Shape([size], 1, size), t => Int8VecConstant(values, t));
    }

    /** No two tensors minted in this graph under the same prefix share an id. */
    lemma NoIdReuse(i: nat, j: nat)
      requires Valid()
      requires i < nextId && j < nextId && i != j && prefixes[i] == prefixes[j]
      ensures MintedIds(operators)[i] != MintedIds(operators)[j]
    {
      IdsForSamePrefixDistinct(prefixes, i, j);
    }
  }

  /* ------------------------------------------------------------ Module */

  datatype ModuleError = DuplicateFunction | FunctionNotFound

  /** Named graphs. Each name owns its own graph object. */
  class Module {
    var functions: map<string, Graph>

    /** Every stored graph keeps its own invariant, and no two names share a graph. */
    ghost predicate Valid()
      reads this, functions.Values
    {
      && (forall n :: n in functions ==> functions[n].Valid())
      && (forall a, b :: a in functions && b in functions && a != b ==> functions[a] != functions[b])
    }

    constructor ()
      ensures Valid() && functions == map[]
    {
      functions := map[];
    }

    /** `AddFunction(name)`: insert a fresh empty graph under a new name. */
    method AddFunction(name: string) returns (r: Result<Graph, ModuleError>)
      requires Valid()
      modifies this
      ensures Valid()
      ensures r.Err? <==> name in old(functions)
      ensures r.Err? ==> r.error == DuplicateFunction && functions == old(functions)
      ensures r.Ok? ==> fresh(r.value) && r.value.Valid()
      ensures r.Ok? ==> r.value.operators == [] && r.value.nextId == 0
      ensures r.Ok? ==> functions == old(functions)[name := r.value]
    {
      if name in functions {
        return Err(DuplicateFunction);
      }
      var g := new Graph();
      functions := functions[name := g];
      r := Ok(g);
    }

    /** `GetFunction(name)`: the graph stored under `name`. */
    function GetFunction(name: string): (r: Result<Graph, ModuleError>)
      reads this
      ensures r.Ok? <==> name in functions
      ensures r.Ok? ==> r.value == functions[name]
      ensures r.Err? ==> r.error == FunctionNotFound
    {
      if name in functions then Ok(functions[name]) else Err(FunctionNotFound)
    }
  }

  /* ----------------------------------------------- QuantizedConv2d kinds */

  /** `weight.shape.shape[1]` is read unchecked, so the weight needs two extents. */
  function GetInputChannels(op: Operator): (c: int)
    requires op.QuantizedConv2d? && |op.weight.shape.shape| >= 2
    ensures c == op.weight.shape.shape[1]
  {
    op.weight.shape.shape[1]
  }

  /** The depthwise test reads the input channels only once its first two
      conjuncts hold. */
  predicate InputChannelsReadable(op: Operator)
    requires op.QuantizedConv2d?
  {
    op.groups > 1 && op.groups == op.outputChannels ==> |op.weight.shape.shape| >= 2
  }

  function IsDepthwiseConv(op: Operator): (r: bool)
    requires op.QuantizedConv2d? && InputChannelsReadable(op)
    ensures r ==> op.groups > 1 && op.groups == op.outputChannels && op.weight.shape.shape[1] == 1
  {
    op.groups > 1 && op.groups == op.outputChannels && GetInputChannels(op) == 1
  }

  function IsGroupConv(op: Operator): (r: bool)
    requires op.QuantizedConv2d? && InputChannelsReadable(op)
    ensures r ==> !IsDepthwiseConv(op) && !IsPointwiseConv(op)
  {
    op.groups > 1 && !IsDepthwiseConv(op)
  }

  function IsPointwiseConv(op: Operator): (r: bool)
    requires op.QuantizedConv2d?
    ensures r <==> op.groups == 1
  {
    op.groups == 1
  }

  /** The three kinds partition the convolutions with `groups >= 1`:
      ungrouped exactly at one group, otherwise depthwise or grouped but not
      both; none applies below one group. Depthwise holds exactly when the
      three conditions do, and grouped exactly when there is more than one
      group and they do not. */
  lemma ConvKindsPartition(op: Operator)
    requires op.QuantizedConv2d? && InputChannelsReadable(op)
    ensures op.groups > 1 && op.groups == op.outputChannels && op.weight.shape.shape[1] == 1 ==> IsDepthwiseConv(op)
    ensures IsGroupConv(op) <==> op.groups > 1 && !(op.groups == op.outputChannels && op.weight.shape.shape[1] == 1)
    ensures IsPointwiseConv(op) <==> op.groups == 1
    ensures !(IsDepthwiseConv(op) && IsGroupConv(op))
    ensures op.groups > 1 ==> (IsDepthwiseConv(op) || IsGroupConv(op)) && !IsPointwiseConv(op)
    ensures op.groups == 1 ==> !IsDepthwiseConv(op) && !IsGroupConv(op)
    ensures op.groups < 1 ==> !IsDepthwiseConv(op) && !IsGroupConv(op) && !IsPointwiseConv(op)
  {
  }

  /* --------------------------------------------------------- Scenarios */

  /** One convolution, then the sink naming its result: the graph holds
      exactly those two records, and the convolution's tensor is "Conv2d0". */
  method ConvThenOutput(dilations: Dilations, padding: Padding, strides: Strides, groups: int,
                        outputChannels: int, input: Tensor, weight: Tensor, dtype: DataType, shape: Shape)
    returns (ops: seq<Operator>)
    ensures |ops| == 2
    ensures ops[0] == Conv2d(dilations, padding, strides, groups, outputChannels, input, weight,
                             Tensor(dtype, shape, "Conv2d0"))
    ensures ops[1] == OutputNode([ops[0].output])
  {
    var g := new Graph();
    var conv := g.Add("Conv2d", dtype, shape,
                      t => Conv2d(dilations, padding, strides, groups, outputChannels, input, weight, t));
    g.AddOutput([conv]);
    ops := g.operators;
    assert Decimal.NatToString(0) == "0";
  }

  /** Adding "f" twice fails the second time; looking up a missing name fails. */
  method DuplicateFunctionScenario() returns (first: bool, second: bool, missing: bool)
    ensures first && !second && !missing
  {
    var m := new Module();
    var r1 := m.AddFunction("f");
    var r2 := m.AddFunction("f");
    first, second := r1.Ok?, r2.Ok?;
    missing := m.GetFunction("missing").Ok?;
  }
}
