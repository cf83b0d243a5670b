/**
 * The Fill operator: `output` becomes a tensor of the shape held in the
 * `dims` input, every element equal to the scalar `value` input. The
 * output tensor's shape, type and buffer are committed before the operator
 * runs, so Prepare checks that they already agree with `dims` and `value`,
 * and Invoke then broadcasts the value into the existing buffer.
 */
module Fill {
  import opened Wrappers
  import opened Shapes

  /** Element type tags a tensor may carry. */
  datatype TensorType = Int8 | Int16 | Int32 | Int64 | UInt8 | Float32 | Bool

  /** The signed integer widths a dims tensor may be stored in. */
  predicate IsDimsType(t: TensorType)
  {
    t.Int8? || t.Int16? || t.Int32? || t.Int64?
  }

  /**
   * The dims input: its type tag (the storage width), its own shape, and
   * its entries already read back as integers.
   */
  datatype DimsTensor = DimsTensor(elementType: TensorType, shape: seq<nat>, values: seq<int>)

  /** The dims tensor's storage holds at least as many entries as its shape declares. */
  predicate Backed(dims: DimsTensor)
  {
    ElementCount(dims.shape) <= |dims.values|
  }

  /** A tensor descriptor: type tag, committed shape and the buffer it owns. */
  datatype Tensor<T> = Tensor(elementType: TensorType, shape: seq<nat>, data: array<T>)

  /** Why Prepare refused the tensor triple. */
  datatype FillError =
    | DimsNotVector
    | UnsupportedDimsType(dimsType: TensorType)
    | RankMismatch(requested: nat, committed: nat)
    | DimensionMismatch(axis: nat)
    | TypeMismatch(valueType: TensorType, outputType: TensorType)

  /** Outcome of a phase: ok, or an error with its reason. */
  datatype Status = Ok | Error(reason: FillError)

  /**
   * The shape requested by the dims tensor: its first `dims.shape[0]`
   * entries, provided it is a vector stored in a supported width.
   */
  function RequestedShape(dims: DimsTensor): (r: Result<seq<int>, FillError>)
    requires Backed(dims)
    ensures r.Success? <==> |dims.shape| == 1 && IsDimsType(dims.elementType)
    ensures r.Success? ==> |r.value| == dims.shape[0]
    ensures r.Success? ==> forall i :: 0 <= i < |r.value| ==> r.value[i] == dims.values[i]
    ensures r == Failure(DimsNotVector) <==> |dims.shape| != 1
  {
    if |dims.shape| != 1 then Failure(DimsNotVector)
    else if !IsDimsType(dims.elementType) then Failure(UnsupportedDimsType(dims.elementType))
    else
      ElementCountLowRanks(dims.shape[0]);
      Success(dims.values[..dims.shape[0]])
  }

  /**
   * The first axis at or after `from` on which the requested and the
   * committed shape disagree, or None when they agree from there on.
   */
  function FirstMismatch(requested: seq<int>, shape: seq<nat>, from: nat): (r: Option<nat>)
    requires |requested| == |shape| && from <= |shape|
    ensures r.None? <==> forall i :: from <= i < |shape| ==> shape[i] == requested[i]
    ensures r.Some? ==> from <= r.value < |shape| && shape[r.value] != requested[r.value]
    ensures r.Some? ==> forall i :: from <= i < r.value ==> shape[i] == requested[i]
    decreases |shape| - from
  {
    if from == |shape| then None
    else if shape[from] != requested[from] then Some(from)
    else FirstMismatch(requested, shape, from + 1)
  }

  /**
   * The committed output shape is the one the dims tensor asks for: the
   * dims tensor is a vector in a supported width, its length is the output
   * rank, and each output dimension equals the corresponding dims entry.
   */
  predicate ShapeMatches(dims: DimsTensor, shape: seq<nat>)
    requires Backed(dims)
  {
    |dims.shape| == 1 && IsDimsType(dims.elementType) && |shape| == dims.shape[0] &&
    (ElementCountLowRanks(dims.shape[0]);
     forall i :: 0 <= i < |shape| ==> shape[i] == dims.values[i])
  }

  /**
   * Prepare: validates, without touching any buffer, that the committed
   * output tensor is what Fill would produce. It succeeds exactly when the
   * output shape matches the dims tensor and the output type is the value
   * type.
   */
  function Prepare<T, U>(dims: DimsTensor, value: Tensor<T>, output: Tensor<U>): (s: Status)
    requires Backed(dims)
    ensures s.Ok? <==> ShapeMatches(dims, output.shape) && output.elementType == value.elementType
  {
    match RequestedShape(dims)
    case Failure(e) => Error(e)
    case Success(requested) =>
      if |requested| != |output.shape| then Error(RankMismatch(|requested|, |output.shape|))
      else
        match FirstMismatch(requested, output.shape, 0)
        case Some(axis) => Error(DimensionMismatch(axis))
        case None =>
          if output.elementType != value.elementType then Error(TypeMismatch(value.elementType, output.elementType))
          else Ok
  }

  /** On success the requested shape, read from dims, is the committed output shape. */
  lemma PrepareShapeFidelity<T, U>(dims: DimsTensor, value: Tensor<T>, output: Tensor<U>)
    requires Backed(dims)
    requires Prepare(dims, value, output) == Ok
    ensures RequestedShape(dims).Success?
    ensures RequestedShape(dims).value == output.shape
    ensures output.elementType == value.elementType
  {
  }

  /** Output rank different from the dims length: a rank error, whatever the types. */
  lemma PrepareRejectsRank<T, U>(dims: DimsTensor, value: Tensor<T>, output: Tensor<U>)
    requires Backed(dims) && |dims.shape| == 1 && IsDimsType(dims.elementType)
    requires |output.shape| != dims.shape[0]
    ensures Prepare(dims, value, output) == Error(RankMismatch(dims.shape[0], |output.shape|))
  {
  }

  /**
   * Same rank, but axis `k` is the first on which the output differs from
   * dims: Prepare reports that axis, whatever the types.
   */
  lemma PrepareRejectsDimension<T, U>(dims: DimsTensor, value: Tensor<T>, output: Tensor<U>, k: nat)
    requires Backed(dims) && |dims.shape| == 1 && IsDimsType(dims.elementType)
    requires |output.shape| == dims.shape[0] && k < |output.shape|
    requires output.shape[k] != dims.values[k]
    requires forall i :: 0 <= i < k ==> output.shape[i] == dims.values[i]
    ensures Prepare(dims, value, output) == Error(DimensionMismatch(k))
  {
  }

  /**
   * A shape mismatch always fails Prepare. That it is then reported as a
   * shape error rather than a type error is this model's check order; the
   * test only sees a failed status.
   */
  lemma PrepareShapeCheckedFirst<T, U>(dims: DimsTensor, value: Tensor<T>, output: Tensor<U>)
    requires Backed(dims)
    requires !ShapeMatches(dims, output.shape)
    ensures Prepare(dims, value, output).Error?
    ensures !Prepare(dims, value, output).reason.TypeMismatch?
  {
  }

  /** The shapes agree but the element types do not: a type error naming both types. */
  lemma PrepareRejectsType<T, U>(dims: DimsTensor, value: Tensor<T>, output: Tensor<U>)
    requires Backed(dims) && ShapeMatches(dims, output.shape)
    requires output.elementType != value.elementType
    ensures Prepare(dims, value, output) == Error(TypeMismatch(value.elementType, output.elementType))
  {
  }

  /**
   * Prepare looks at no buffer: two triples with the same type tags and
   * shapes get the same verdict, however large or small their buffers are.
   */
  lemma PrepareIgnoresBuffers<T, U>(dims: DimsTensor, value: Tensor<T>, output: Tensor<U>,
                                    value': Tensor<T>, output': Tensor<U>)
    requires Backed(dims)
    requires value'.elementType == value.elementType
    requires output'.elementType == output.elementType && output'.shape == output.shape
    ensures Prepare(dims, value', output') == Prepare(dims, value, output)
  {
  }

  /**
   * Dims-width independence: the same dims entries stored in any two
   * supported integer widths give the same verdict.
   */
  lemma PrepareDimsWidthIndependent<T, U>(dims: DimsTensor, width: TensorType,
                                          value: Tensor<T>, output: Tensor<U>)
    requires Backed(dims) && IsDimsType(dims.elementType) && IsDimsType(width)
    ensures Prepare(dims.(elementType := width), value, output) == Prepare(dims, value, output)
  {
  }

  /**
   * Entries stored past the dims tensor's declared length play no part:
   * a buffer trimmed to the declared length gets the same verdict.
   */
  lemma PrepareIgnoresSpareDims<T, U>(dims: DimsTensor, value: Tensor<T>, output: Tensor<U>)
    requires Backed(dims)
    ensures Backed(dims.(values := dims.values[..ElementCount(dims.shape)]))
    ensures Prepare(dims.(values := dims.values[..ElementCount(dims.shape)]), value, output)
            == Prepare(dims, value, output)
  {
  }

  /**
   * Invoke: after a successful Prepare, writes the value tensor's scalar
   * into each of the output's `ElementCount(output.shape)` slots, in index
   * order, and reports ok. Slots past that count are left as they were.
   */
  method Invoke<T>(ghost dims: DimsTensor, value: Tensor<T>, output: Tensor<T>) returns (s: Status)
    requires Backed(dims) && Prepare(dims, value, output) == Ok
    requires value.data.Length > 0
    requires ElementCount(output.shape) <= output.data.Length
    modifies output.data
    ensures s == Ok
    ensures forall i :: 0 <= i < ElementCount(output.shape) ==> output.data[i] == old(value.data[0])
    ensures forall i :: ElementCount(output.shape) <= i < output.data.Length ==>
              output.data[i] == old(output.data[i])
  {
    var fill := value.data[0];
    var elements := ElementCount(output.shape);
    var i := 0;
    while i < elements
      invariant 0 <= i <= elements
      invariant forall j :: 0 <= j < i ==> output.data[j] == fill
      invariant forall j :: elements <= j < output.data.Length ==> output.data[j] == old(output.data[j])
    {
      output.data[i] := fill;
      i := i + 1;
    }
    s := Ok;
  }
}
