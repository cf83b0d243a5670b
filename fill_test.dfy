/**
 * The Fill operator's test harness: how the test wires three tensors to
 * the operator, what it expects of Prepare and Invoke, and its seven
 * scenarios, each stated as a method whose postcondition is the test's
 * expectation.
 */
module FillTest {
  import opened Wrappers
  import opened Shapes
  import opened Fill

  /** Positions of the three tensors in the operator's tensor table. */
  const DimsIndex: int := 0
  const ValueIndex: int := 1
  const OutputIndex: int := 2
  const TensorCount: int := 3

  /** The operator's input and output index lists, length-prefixed. */
  const Inputs: seq<int> := [2, DimsIndex, ValueIndex]
  const Outputs: seq<int> := [1, OutputIndex]

  /**
   * The operator reads exactly two inputs, dims then value, and writes one
   * output; the three roles are distinct entries of the tensor table.
   */
  lemma OperatorWiring()
    ensures IntArrayFromInts(Inputs) == Some([DimsIndex, ValueIndex])
    ensures IntArrayFromInts(Outputs) == Some([OutputIndex])
    ensures 0 <= DimsIndex < TensorCount && 0 <= ValueIndex < TensorCount && 0 <= OutputIndex < TensorCount
    ensures DimsIndex != ValueIndex && ValueIndex != OutputIndex && OutputIndex != DimsIndex
  {
    assert Inputs[1..3] == [DimsIndex, ValueIndex];
    assert Outputs[1..2] == [OutputIndex];
  }

  /**
   * What the test hands over for one tensor: its length-prefixed shape,
   * the type tag of its element type, and its data.
   */
  datatype TensorArgs<D> = TensorArgs(shape: seq<int>, elementType: TensorType, data: D)

  /** The dims tensor built from its arguments. */
  function DimsFrom(dims: TensorArgs<seq<int>>): (d: DimsTensor)
    requires ShapeFromInts(dims.shape).Some?
    ensures d.elementType == dims.elementType && d.values == dims.data
    ensures |d.shape| < |dims.shape| && ShapeToInts(d.shape) == dims.shape[..|d.shape| + 1]
  {
    ShapeFromIntsIff(dims.shape, ShapeFromInts(dims.shape).value);
    DimsTensor(dims.elementType, ShapeFromInts(dims.shape).value, dims.data)
  }

  /** A value or output tensor built from its arguments. */
  function TensorFrom<T>(t: TensorArgs<array<T>>): (r: Tensor<T>)
    requires ShapeFromInts(t.shape).Some?
    ensures r.elementType == t.elementType && r.data == t.data
    ensures |r.shape| < |t.shape| && ShapeToInts(r.shape) == t.shape[..|r.shape| + 1]
  {
    ShapeFromIntsIff(t.shape, ShapeFromInts(t.shape).value);
    Tensor(t.elementType, ShapeFromInts(t.shape).value, t.data)
  }

  /**
   * The three shapes are well-formed length-prefixed arrays and the dims
   * data holds the entries its shape declares.
   */
  predicate Constructible<V, O>(dims: TensorArgs<seq<int>>, value: TensorArgs<array<V>>,
                                output: TensorArgs<array<O>>)
  {
    ShapeFromInts(dims.shape).Some? && ShapeFromInts(value.shape).Some? &&
    ShapeFromInts(output.shape).Some? && Backed(DimsFrom(dims))
  }

  /** A well-formed prefixed shape of rank 1 is `[1, n]` followed by spare entries. */
  lemma VectorShape(ints: seq<int>)
    requires ShapeFromInts(ints).Some? && |ShapeFromInts(ints).value| == 1
    ensures |ints| >= 2 && ints[0] == 1 && ints[1] >= 0
    ensures ShapeFromInts(ints).value == [ints[1] as nat]
    ensures ElementCount(ShapeFromInts(ints).value) == ints[1]
  {
  }

  /**
   * Prepare on the tensors the test builds. It succeeds exactly when the
   * dims tensor is a vector in a supported width, the output's prefixed
   * rank equals the dims length `dims.shape[1]`, each output dimension
   * `output.shape[i + 1]` equals `dims.data[i]`, and the output type is the
   * value type.
   */
  function PrepareFill<V, O>(dims: TensorArgs<seq<int>>, value: TensorArgs<array<V>>,
                             output: TensorArgs<array<O>>): (s: Status)
    requires Constructible(dims, value, output)
    ensures s.Ok? <==>
              dims.shape[0] == 1 && IsDimsType(dims.elementType) &&
              output.shape[0] == dims.shape[1] &&
              (VectorShape(dims.shape);
               forall i :: 0 <= i < dims.shape[1] ==> output.shape[i + 1] == dims.data[i]) &&
              output.elementType == value.elementType
  {
    var d := DimsFrom(dims);
    var o := TensorFrom(output);
    assert forall i :: 0 <= i < |o.shape| ==> o.shape[i] == output.shape[i + 1];
    Prepare(d, TensorFrom(value), o)
  }

  /**
   * The shared body of the successful scenarios: Prepare and Invoke both
   * report ok, the committed output shape is the requested one, the output
   * type is the value type, and each of the output's elements holds the
   * fill value.
   */
  method TestFill<T>(dims: TensorArgs<seq<int>>, value: TensorArgs<array<T>>,
                     output: TensorArgs<array<T>>)
    returns (prepared: Status, invoked: Status)
    requires Constructible(dims, value, output)
    requires value.data.Length > 0
    requires ElementCount(ShapeFromInts(output.shape).value) <= output.data.Length
    requires PrepareFill(dims, value, output) == Ok
    modifies output.data
    ensures prepared == Ok && invoked == Ok
    ensures output.shape[0] == dims.shape[1]
    ensures forall i :: 0 <= i < dims.shape[1] ==> output.shape[i + 1] == dims.data[i]
    ensures output.elementType == value.elementType
    ensures forall i :: 0 <= i < ElementCount(ShapeFromInts(output.shape).value) ==>
              output.data[i] == value.data[0]
  {
    var d := DimsFrom(dims);
    prepared := Prepare(d, TensorFrom(value), TensorFrom(output));
    invoked := Invoke(d, TensorFrom(value), TensorFrom(output));
  }

  /** dims [3, 8] as int32, value -42 as int8: all 24 elements of the int8 output are -42. */
  method FillInt8() returns (prepared: Status, invoked: Status, output: array<int>)
    ensures prepared == Ok && invoked == Ok
    ensures output.Length == 24 && forall i :: 0 <= i < 24 ==> output[i] == -42
  {
    var valueData := new int[][-42];
    output := new int[24];
    ElementCountConcat([3], [8]);
    ElementCountLowRanks(3);
    ElementCountLowRanks(8);
    prepared, invoked := TestFill(TensorArgs([1, 2], Int32, [3, 8]),
                                  TensorArgs([0], Int8, valueData),
                                  TensorArgs([2, 3, 8], Int8, output));
  }

  /** dims [2, 2, 2] as int64, value 4.0 as float32: all 8 float32 elements are 4.0. */
  method FillFloatInt64Dims() returns (prepared: Status, invoked: Status, output: array<real>)
    ensures prepared == Ok && invoked == Ok
    ensures output.Length == 8 && forall i :: 0 <= i < 8 ==> output[i] == 4.0
  {
    var valueData := new real[][4.0];
    output := new real[8];
    CubeOfTwos();
    prepared, invoked := TestFill(TensorArgs([1, 3], Int64, [2, 2, 2]),
                                  TensorArgs([0], Float32, valueData),
                                  TensorArgs([3, 2, 2, 2], Float32, output));
  }

  /** dims [2, 2, 2] as int32, value 4.0 as float32: all 8 float32 elements are 4.0. */
  method FillFloatInt32Dims() returns (prepared: Status, invoked: Status, output: array<real>)
    ensures prepared == Ok && invoked == Ok
    ensures output.Length == 8 && forall i :: 0 <= i < 8 ==> output[i] == 4.0
  {
    var valueData := new real[][4.0];
    output := new real[8];
    CubeOfTwos();
    prepared, invoked := TestFill(TensorArgs([1, 3], Int32, [2, 2, 2]),
                                  TensorArgs([0], Float32, valueData),
                                  TensorArgs([3, 2, 2, 2], Float32, output));
  }

  /** dims [3, 2, 4] as int8, value 4.0 as float32: all 24 float32 elements are 4.0. */
  method FillFloatInt8Dims() returns (prepared: Status, invoked: Status, output: array<real>)
    ensures prepared == Ok && invoked == Ok
    ensures output.Length == 24 && forall i :: 0 <= i < 24 ==> output[i] == 4.0
  {
    var valueData := new real[][4.0];
    output := new real[24];
    ElementCountConcat([3], [2, 4]);
    ElementCountConcat([2], [4]);
    ElementCountLowRanks(2);
    ElementCountLowRanks(3);
    ElementCountLowRanks(4);
    prepared, invoked := TestFill(TensorArgs([1, 3], Int8, [3, 2, 4]),
                                  TensorArgs([0], Float32, valueData),
                                  TensorArgs([3, 3, 2, 4], Float32, output));
  }

  /** The shape [2, 2, 2] of two of the scenarios holds 8 elements. */
  lemma CubeOfTwos()
    ensures ElementCount([2, 2, 2]) == 8
  {
  }

  /**
   * A dims vector of length 0 (its one stored entry is spare) asks for a
   * scalar: the rank-0 output holds one element, and it becomes 4.0.
   */
  method FillScalar() returns (prepared: Status, invoked: Status, output: array<real>)
    ensures prepared == Ok && invoked == Ok
    ensures output.Length == 1 && output[0] == 4.0
  {
    var valueData := new real[][4.0];
    output := new real[][0.0];
    ElementCountLowRanks(0);
    prepared, invoked := TestFill(TensorArgs([1, 0], Int64, [0]),
                                  TensorArgs([0], Float32, valueData),
                                  TensorArgs([0], Float32, output));
  }

  /**
   * dims [3, 4] against a committed output shape [4, 5], whose buffer holds
   * only 12 elements: Prepare fails on axis 0 without reading the buffer.
   */
  method FillMismatchedShape() returns (prepared: Status)
    ensures prepared == Error(DimensionMismatch(0))
  {
    var valueData := new real[][4.0];
    var outputData := new real[12];
    prepared := PrepareFill(TensorArgs([1, 2], Int64, [3, 4]),
                            TensorArgs([0], Float32, valueData),
                            TensorArgs([2, 4, 5], Float32, outputData));
  }

  /** dims [3, 2] with a float32 value against an int8 output: Prepare fails on the type. */
  method FillMismatchedType() returns (prepared: Status)
    ensures prepared == Error(TypeMismatch(Float32, Int8))
  {
    var valueData := new real[][4.0];
    var outputData := new int[6];
    prepared := PrepareFill(TensorArgs([1, 2], Int64, [3, 2]),
                            TensorArgs([0], Float32, valueData),
                            TensorArgs([2, 3, 2], Int8, outputData));
  }
}
