# Fill operator of the TensorFlow Lite Micro runtime, modelled in Dafny

The Fill operator takes two inputs, `dims` (a vector of integers) and `value`
(a scalar), and produces an output tensor of shape `dims` whose every element
is `value`. In the micro runtime the output tensor's shape, type and buffer are
fixed by the allocator before the operator runs, so the operator works in two
phases:

- **Prepare** checks, without touching any buffer, that the committed output
  shape is exactly the one the dims tensor asks for, and that the output type
  is the value type. Any mismatch is an error.
- **Invoke**, called only after a successful Prepare, writes the value into
  each of the output's `ElementCount(shape)` slots, in index order.

The repository's file `tensorflow/lite/micro/kernels/fill_test.cc` pins this
contract down. The kernel it drives, `tensorflow/lite/micro/kernels/fill.cc`,
is not part of this model. Its behaviour is modelled from what the test
asserts.

Files:

- `wrappers.dfy` (`Wrappers`): `Option` and `Result`.
- `shapes.dfy` (`Shapes`): the length-prefixed int arrays the test builds with
  `IntArrayFromInts` (element 0 is the count), shapes decoded from them, and
  `ElementCount`, the product of the dimensions (1 for the empty shape).
- `fill.dfy` (`Fill`): type tags, the dims tensor and tensor descriptors
  (type tag, shape, buffer), `Prepare` as a pure validator with its error
  reasons, and `Invoke` as a method that fills the output `array` in place.
- `fill_test.dfy` (`FillTest`): the operator's tensor roles and index lists,
  `PrepareFill` and `TestFill` as the test writes them, and the seven test
  scenarios as methods whose postconditions are the test's expectations.

Element values are a type parameter compared only by equality. The float
scenarios use `real` and the int8 scenario uses `int`.

## Model

| member | source | states |
|---|---|---|
| `Shapes.IntArrayFromInts` | tensorflow/lite/micro/kernels/fill_test.cc:43-45 | A prefixed array decodes exactly when its count is non-negative and covered by the entries. The result has that count as its length, and entry `i` is element `i + 1`. |
| `Shapes.IntArrayRoundTrip` | tensorflow/lite/micro/kernels/fill_test.cc:43-45 | Decoding the prefixed layout of any int array gives that array back. |
| `Shapes.IntArrayFromIntsPrefix` | tensorflow/lite/micro/kernels/fill_test.cc:67-68 | A successful decode read exactly the prefixed layout of its result: element 0 is the rank, and the entries are elements `1..rank`. |
| `Shapes.ShapeFromIntsIff` | tensorflow/lite/micro/kernels/fill_test.cc:43-45 | An int array decodes to a shape exactly when it starts with that shape's prefixed layout (both directions). |
| `Shapes.ShapeFromInts` | tensorflow/lite/micro/kernels/fill_test.cc:43-45 | A prefixed array decodes to a shape exactly when its count is non-negative and covered by the entries, and each counted entry is non-negative. The shape has that count as its rank, and dimension `i` is element `i + 1`. |
| `Shapes.ElementCount` | tensorflow/lite/micro/kernels/fill_test.cc:82 | The element count is zero exactly when some dimension is zero. |
| `Shapes.ElementCountLowRanks` | tensorflow/lite/micro/kernels/fill_test.cc:185-186 | A rank-0 (scalar) shape holds one element. A vector shape holds its length. |
| `Shapes.ElementCountConcat` | tensorflow/lite/micro/kernels/fill_test.cc:82 | The element count of a concatenated shape is the product of the parts' counts. |
| `Fill.RequestedShape` | tensorflow/lite/micro/kernels/fill_test.cc:67-71 | The requested shape exists exactly when dims is a vector in a supported integer width. Its rank is the dims length and its entries are the dims values. A dims tensor of another rank is a DimsNotVector error. |
| `Fill.FirstMismatch` | tensorflow/lite/micro/kernels/fill_test.cc:69-72 | None exactly when the two shapes agree on every remaining axis. Otherwise it gives the first axis on which they differ. |
| `Fill.Prepare` | tensorflow/lite/micro/kernels/fill_test.cc:63-79 | Prepare is ok exactly when dims is a supported vector, the output rank is its length, each output dimension equals its dims entry, and the output type equals the value type. |
| `Fill.PrepareShapeFidelity` | tensorflow/lite/micro/kernels/fill_test.cc:66-79 | After a successful Prepare, the shape decoded from dims equals the committed output shape, and the output type is the value type. |
| `Fill.PrepareRejectsRank` | tensorflow/lite/micro/kernels/fill_test.cc:69-75 | An output rank different from the dims length is a rank error, whatever the types. |
| `Fill.PrepareRejectsDimension` | tensorflow/lite/micro/kernels/fill_test.cc:193-213 | With equal ranks, the first axis where the output differs from dims is the one reported, whatever the types. |
| `Fill.PrepareShapeCheckedFirst` | tensorflow/lite/micro/kernels/fill_test.cc:193-213 | A shape mismatch always fails Prepare. That it is reported as a shape error and not a type error follows this model's check order. |
| `Fill.PrepareRejectsType` | tensorflow/lite/micro/kernels/fill_test.cc:215-237 | When the shapes agree but the output type differs from the value type, Prepare fails with a type error naming both types. |
| `Fill.PrepareIgnoresBuffers` | tensorflow/lite/micro/kernels/fill_test.cc:206-212 | Triples with equal type tags and shapes get the same verdict, whatever their buffers, including a buffer smaller than the declared shape. |
| `Fill.PrepareDimsWidthIndependent` | tensorflow/lite/micro/kernels/fill_test.cc:121-176 | The same dims entries stored as int8, int16, int32 or int64 give the same verdict. |
| `Fill.PrepareIgnoresSpareDims` | tensorflow/lite/micro/kernels/fill_test.cc:179-180 | Dims entries stored past the declared dims length do not change the verdict. |
| `Fill.Invoke` | tensorflow/lite/micro/kernels/fill_test.cc:81-85 | After a successful Prepare, Invoke returns ok. Each of the first `ElementCount(output.shape)` slots then holds the value's element, and every later slot is unchanged. |
| `FillTest.OperatorWiring` | tensorflow/lite/micro/kernels/fill_test.cc:27-32 | The input list is dims (0) then value (1), and the output list is output (2). The three roles are distinct entries of the three-tensor table. |
| `FillTest.DimsFrom` | tensorflow/lite/micro/kernels/fill_test.cc:42-43 | The dims tensor keeps the given type tag and data, and its shape is the one whose prefixed layout opens the given shape array. |
| `FillTest.TensorFrom` | tensorflow/lite/micro/kernels/fill_test.cc:44-45 | A value or output tensor keeps the given type tag and buffer, and its shape is the one whose prefixed layout opens the given shape array. |
| `FillTest.VectorShape` | tensorflow/lite/micro/kernels/fill_test.cc:68 | A well-formed prefixed rank-1 shape is `[1, n, ...]`, and it decodes to `[n]` holding `n` elements. |
| `FillTest.PrepareFill` | tensorflow/lite/micro/kernels/fill_test.cc:88-97 | In terms of the prefixed arrays the test writes: ok exactly when `dims_shape[0] == 1`, the dims width is supported, `output_shape[0] == dims_shape[1]`, `output_shape[i + 1] == dims_data[i]` for each `i`, and the types agree. |
| `FillTest.TestFill` | tensorflow/lite/micro/kernels/fill_test.cc:55-86 | When Prepare succeeds, both phases return ok, even if the value and output buffers are the same array. The output's prefixed shape then repeats the dims, the types agree, and each output element equals `value_data[0]`. |
| `FillTest.FillInt8` | tensorflow/lite/micro/kernels/fill_test.cc:103-119 | dims [3, 8] in int32 with the int8 value -42: both phases ok, and all 24 output elements are -42. |
| `FillTest.FillFloatInt64Dims` | tensorflow/lite/micro/kernels/fill_test.cc:121-138 | dims [2, 2, 2] in int64 with the value 4.0: both phases ok, and all 8 elements are 4.0. |
| `FillTest.FillFloatInt32Dims` | tensorflow/lite/micro/kernels/fill_test.cc:140-157 | dims [2, 2, 2] in int32 with the value 4.0: both phases ok, and all 8 elements are 4.0. |
| `FillTest.FillFloatInt8Dims` | tensorflow/lite/micro/kernels/fill_test.cc:159-176 | dims [3, 2, 4] in int8 with the value 4.0: both phases ok, and all 24 elements are 4.0. |
| `FillTest.CubeOfTwos` | tensorflow/lite/micro/kernels/fill_test.cc:132-133 | The shape [2, 2, 2] holds 8 elements. |
| `FillTest.FillScalar` | tensorflow/lite/micro/kernels/fill_test.cc:178-191 | A length-0 dims vector against a rank-0 output: both phases ok, and exactly one element is written, with 4.0. |
| `FillTest.FillMismatchedShape` | tensorflow/lite/micro/kernels/fill_test.cc:193-213 | dims [3, 4] against an output of shape [4, 5] whose buffer holds 12 elements: Prepare fails on axis 0. |
| `FillTest.FillMismatchedType` | tensorflow/lite/micro/kernels/fill_test.cc:215-237 | A float32 value against an int8 output of the right shape: Prepare fails with a type error. |

## Left out

- `KernelRunner`, `Register_FILL`, `micro_test::reporter` and the test macros are harness plumbing and are not modelled. The operator takes no builtin data (line 51), so `Prepare` and `Invoke` take no configuration.
- The kernel source (`fill.cc`) is not part of this model. The source reports only `kTfLiteError`. The error reasons in `FillError`, and the order in which Prepare checks for them, are this model's choice; the test does not fix them.
- The runner's phases (init, prepare, invoke) are not modelled as a state machine. Invoke requires a successful Prepare on the same tensors, and its behaviour after a failed Prepare is unspecified. Prepare is a function, so calling it twice gives the same verdict and changes nothing.
- `TfLiteTensor`'s layout, `CreateTensor` and the memory allocator/planner are foreign code. A tensor is a record of type tag, shape and buffer.
- Floating-point semantics of 4.0 are not modelled: elements are a type parameter compared by equality.
- Dims storage is not reinterpreted at the byte level, and int8 narrowing is not modelled. The dims entries arrive already read as integers, tagged with their width.
- A malformed length-prefixed array (negative count, or a count past the end) decodes to None. The C code would read past the array.
- `Shapes.ShapeFromInts`: a prefixed shape with a negative entry, such as `[1, -1]`, decodes to None. The C helper accepts it as a dimension, but no tensor of the test has one.
- `Fill.RequestedShape`: a rank-0 dims tensor could also be read as a scalar request. The test never builds one (line 68 reads `dims_shape[1]`) and asks for a scalar with a dims vector of length 0 (lines 179-180). So the model treats a dims tensor of any rank other than 1 as an error.
- Prepare does not check that the value tensor is rank 0, because the test never checks the value tensor's rank. Invoke requires the value buffer to hold at least one element.
- Invoke always returns ok. The test only ever expects `kTfLiteOk` from Invoke (line 64), and the element type here is generic.
- Shape entries and `ElementCount` are unbounded integers. The C `int` product could overflow, and that is not modelled.
