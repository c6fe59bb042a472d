# GPU cumulative-sum implementation: axis resolution, kernel parameters, registration

This project models the OpenCL cumulative-sum implementation of the Intel GPU
plugin (`src/plugins/intel_gpu/src/graph/impls/ocl/cum_sum.cpp`) in Dafny and
proves properties of it.

- `types.dfy` (`CumSumTypes`): the kernel's axis roles (`Batch`, `Feature`, `W`,
  `Z`, `Y`, `X`), data types, layout formats with their rank, and the dimension
  order of the plain formats bfyx, bfzyx and bfwzyx.
- `axis.dfy` (`AxisConversion`): `convert_axis`. A negative axis is wrapped once
  by adding the output rank. The wrapped index then goes through the same case
  analysis as the source, for every rank and not only 4, 5 and 6. A second
  definition models the signed-64-bit plus unsigned-64-bit `axis += rank` as the
  machine does it. It equals plain addition for every rank below 2^63. The role
  it selects equals the unbounded model's for every 64-bit axis and rank.
- `kernel_params.dfy` (`KernelParams`): the cumulative-sum part of
  `get_kernel_params` (axis, exclusive, reverse) and `clone`.
- `registry.dfy` (`CumSumRegistry`): the (data type, format) list registered
  for the OpenCL backend, shown to be exactly the product
  {i32, i64, f16, f32} × {bfyx, bfzyx, bfwzyx} with twelve distinct entries.

The resolution of a valid axis is tied to an independent reference: the role
that the layout format's name (b, f, w, z, y, x) places at that position. Each
format names every role once, so injectivity over the valid axes follows from
that reference, and `AxisConversion.ConvertAxisInjective` is proved that way.

The mapping does not reject axes past the rank. On a rank-4 output, axes 4 and
5 resolve to `X`: `case 4` picks `X` for every rank other than 6, and `case 5`
is always `X`. Likewise axis 5 on a rank-5 output is `X`.
`AxisConversion.OutOfRangeIndicesCollide` records this.

## Model

| member | source | states |
|---|---|---|
| AxisConversion.NormalizeAxis | src/plugins/intel_gpu/src/graph/impls/ocl/cum_sum.cpp:19-21 | the wrapped index is a valid position (0..rank-1) if and only if the axis lies in -rank..rank-1; a negative axis -k that wraps to a position names the k-th dimension from the end |
| AxisConversion.ConvertAxis | src/plugins/intel_gpu/src/graph/impls/ocl/cum_sum.cpp:18-47 | the role is `Batch` if and only if the wrapped index is 0 or outside 0..5; for ranks 4, 5 and 6 a valid axis gets the role bfyx, bfzyx or bfwzyx spells at the wrapped position |
| AxisConversion.NormalizeAxisWrapsNegative | src/plugins/intel_gpu/src/graph/impls/ocl/cum_sum.cpp:19-21 | a negative axis is wrapped by adding the rank and a non-negative one is used as is; for -rank <= axis < 0 the role equals that of axis + rank |
| AxisConversion.ToInt64 | src/plugins/intel_gpu/src/graph/impls/ocl/cum_sum.cpp:20 | storing an unsigned 64-bit sum back into the signed axis keeps its bit pattern (the value is congruent modulo 2^64) |
| AxisConversion.MachineNormalizeAxis | src/plugins/intel_gpu/src/graph/impls/ocl/cum_sum.cpp:18-21 | the int64 + size_t wrap, computed modulo 2^64 and stored back as int64, is congruent modulo 2^64 to plain addition and equals it for every rank below 2^63 |
| AxisConversion.MachineConvertAxisAgrees | src/plugins/intel_gpu/src/graph/impls/ocl/cum_sum.cpp:18-47 | for every 64-bit axis and every 64-bit rank, the switch applied to the machine wrap selects the same role as the unbounded model, overflow included |
| AxisConversion.BatchAndFeatureForEveryRank | src/plugins/intel_gpu/src/graph/impls/ocl/cum_sum.cpp:23-24 | axis 0 (or -rank) is `Batch` and axis 1 (or 1-rank) is `Feature` for every rank |
| AxisConversion.SpatialRolesByRank | src/plugins/intel_gpu/src/graph/impls/ocl/cum_sum.cpp:25-44 | axes 2..5 resolve to w/z/y/x for rank 6, z/y/x for rank 5, and y/x for every other rank, with axis 5 always `X` |
| AxisConversion.FallbackToBatch | src/plugins/intel_gpu/src/graph/impls/ocl/cum_sum.cpp:19-45 | the role is `Batch` if and only if the wrapped index is 0 or lies outside 0..5; axes >= 6 and axes below -rank fall back to `Batch` and never fail |
| AxisConversion.ConvertAxisFollowsDimensionOrder | src/plugins/intel_gpu/src/graph/impls/ocl/cum_sum.cpp:18-47 | for bfyx, bfzyx and bfwzyx every valid axis, negative or not, resolves to the role the format's name spells at the wrapped position |
| AxisConversion.ConvertAxisInjective | src/plugins/intel_gpu/src/graph/impls/ocl/cum_sum.cpp:18-47 | for ranks 4, 5 and 6, two valid axes with the same role wrap to the same index |
| AxisConversion.LastAxisIsX | src/plugins/intel_gpu/src/graph/impls/ocl/cum_sum.cpp:19-44 | for ranks 4, 5 and 6 both -1 and rank-1 resolve to `X` |
| AxisConversion.OutOfRangeIndicesCollide | src/plugins/intel_gpu/src/graph/impls/ocl/cum_sum.cpp:22-45 | beyond the valid range the mapping collides: on rank 4, axes 3, 4 and 5 are all `X`, and -5 and 7 are `Batch`; also (-1, 5) is `X`, (2, 6) is `W` and (2, 3) is `Y` |
| KernelParams.GetKernelParams | src/plugins/intel_gpu/src/graph/impls/ocl/cum_sum.cpp:63-73 | on a bfyx, bfzyx or bfwzyx output a valid axis selects the role the format puts at the wrapped position; an axis whose wrapped index is outside 0..5 selects `Batch`; exclusive and reverse are the primitive's own flags |
| KernelParams.KernelParamsDeterminedByAttributes | src/plugins/intel_gpu/src/graph/impls/ocl/cum_sum.cpp:63-72 | the parameters are fully determined by axis, exclusive, reverse and output rank; the primitive id, the data type and which format supplies the rank do not matter |
| KernelParams.KernelParamsNegativeAxisEquivalent | src/plugins/intel_gpu/src/graph/impls/ocl/cum_sum.cpp:68-69 | a valid axis written as axis - rank yields the same parameters as axis |
| KernelParams.Clone | src/plugins/intel_gpu/src/graph/impls/ocl/cum_sum.cpp:58-60 | a clone is equal to the original and carries the same parameters |
| CumSumRegistry.IsSupported | src/plugins/intel_gpu/src/graph/impls/ocl/cum_sum.cpp:79-92 | a pair is supported if and only if its type is in [i32, i64, f16, f32] and its format in [bfyx, bfzyx, bfwzyx]; every supported format is plain, of rank 4 to 6 |
| CumSumRegistry.ProductMembers | src/plugins/intel_gpu/src/graph/impls/ocl/cum_sum.cpp:79-92 | a key is in the type-major product exactly when its type and its format are in the two lists |
| CumSumRegistry.ProductDistinct | src/plugins/intel_gpu/src/graph/impls/ocl/cum_sum.cpp:79-92 | the product of repetition-free lists has no repeated key |
| CumSumRegistry.OclKeysAreProduct | src/plugins/intel_gpu/src/graph/impls/ocl/cum_sum.cpp:79-92 | the literal registration list equals the product of [i32, i64, f16, f32] and [bfyx, bfzyx, bfwzyx], in that order |
| CumSumRegistry.OclSupportedExactly | src/plugins/intel_gpu/src/graph/impls/ocl/cum_sum.cpp:79-92 | a (type, format) pair is supported if and only if the type is one of the four and the format one of the three; the list has 12 entries, all distinct |

## Left out

- `get_default_params` and `get_default_optional_params` (lines 65-66) are not part of this model. Their definitions are not available. The model covers only the cumulative-sum fields, and the optional parameters are not modelled.
- The kernel selector and the OpenCL kernel bodies are not part of this model. The numerical cumulative sum itself is not modelled.
- The `implementation_map<cum_sum>::add` internals are not part of this model, and neither is its duplicate-key policy. The registration is modelled as the list it is given, together with a membership predicate.
- `typed_primitive_impl_ocl<cum_sum>::create` is not modelled, because its definition is not available. The serialization macros `DECLARE_OBJECT_TYPE_SERIALIZATION` and `BIND_BINARY_BUFFER_WITH_TYPE` are not modelled for the same reason.
- A layout is reduced to its data type and format, with the rank taken from the format. Formats and data types the file does not name appear as `OtherFormat` and `OtherType`.
- KernelParams.Clone: it states only that the copy equals the original. Object identity, allocation and the separate runtime state of the copy have no counterpart in an immutable value model.
- Other parts of OpenVINO are not modelled: the Python binding's infer request, the graph-rewrite pass declarations, the update-message helper and the test scaffolding. They hold bindings, declarations without bodies, wall-clock formatting or test harness code.
