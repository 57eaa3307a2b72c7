# alpaka CUDA core: native vector types as extents, and the driver status check

This project models the logic of alpaka's `alpaka/include/alpaka/core/Cuda.hpp`
and proves properties of it in Dafny.

The header contains two pieces of logic.

1. **CUDA vector types as N-dimensional extents and offsets.** The header
   plugs CUDA's built-in vector types into alpaka's generic traits. The types
   are `char1` … `ushort4`, `dim3`, and, under clang's CUDA front end, the
   types of `threadIdx`, `blockIdx`, `blockDim` and `gridDim`. The pieces are:
   - `IsCudaBuiltInType` recognises the types.
   - `DimType` gives each type its dimension K (1 to 4).
   - `ElemType` is the type of member `x`.
   - `IdxType` is `std::size_t`.
   - `GetExtent`/`SetExtent` and `GetOffset`/`SetOffset` read or write one
     member per logical axis. The mapping is reversed: axis `a` is native
     member `K - 1 - a`. So axis `K - 1` is `x`, and axis 0 is the last member.
2. **`cudaDrvCheck`.** It returns on `CUDA_SUCCESS`. On any other status it
   asks the driver for the status's name and description. It builds a message
   `file(line) call : 'name': 'description'!`; when a lookup fails, fixed
   markers replace the texts. It logs the message when `ALPAKA_DEBUG` is at
   least `ALPAKA_DEBUG_MINIMAL`, then throws it as `std::runtime_error`.

The model has four modules:
- `CudaTypes` (`cuda_types.dfy`): a C++ type is a `CType` value. The
  classifier and the four `DimType` groups are written as the header writes
  them: one identity test per listed type, in the header's order. Lemmas show
  that the two separately written enumerations agree. They also check the
  dimension and element type against the member layout of each native struct.
- `CudaAxis` (`cuda_axis.dfy`): a native value is a `Native<E>`, a type plus
  its members in declaration order. The element type `E` is a parameter.
  Getters and setters follow the header's four specialisations each, keyed
  on `Dim - (c + 1)`. The class `NativeVar` models the in-place update that
  the setters perform on the caller's variable.
- `DecimalText` (`decimal_text.dfy`): `std::to_string` on `int`, with a
  parser as its proved inverse.
- `CudaDrvCheck` (`cuda_drv_check.dfy`): `cudaDrvCheck` is a method that
  builds the message by successive appends, as the source does. It is proved
  against the function `ErrorMessage`.

A C++ compile error on misuse becomes a precondition. Examples are a
non-CUDA type given to a trait, or an axis that is not below the dimension.

Two details of the failure path in `Cuda.hpp:85-93` shape the message:
- The two texts are appended only when both lookups succeed. When either
  lookup fails, the message carries no lookup text at all, not even the text
  of the lookup that succeeded.
- A failed lookup appends its marker only when its status is
  `CUDA_ERROR_INVALID_VALUE`. Any other failing status appends nothing.

## Model

| member | source | states |
|---|---|---|
| `CudaTypes.IsCudaBuiltInType` | alpaka/include/alpaka/core/Cuda.hpp:122-185 | Every accepted type is a vector type of width 1 to 4, `dim3`, or, under clang only, a built-in variable type |
| `CudaTypes.InDim1Group` | alpaka/include/alpaka/core/Cuda.hpp:192-212 | Every type the one-dimensional `DimType` specialisation lists is a one-component vector type |
| `CudaTypes.InDim2Group` | alpaka/include/alpaka/core/Cuda.hpp:213-235 | Every type the two-dimensional `DimType` specialisation lists is a two-component vector type |
| `CudaTypes.InDim3Group` | alpaka/include/alpaka/core/Cuda.hpp:236-265 | Every type the three-dimensional `DimType` specialisation lists is a three-component vector type, `dim3`, or, under clang only, a built-in variable type |
| `CudaTypes.InDim4Group` | alpaka/include/alpaka/core/Cuda.hpp:266-288 | Every type the four-dimensional `DimType` specialisation lists is a four-component vector type |
| `CudaTypes.InDimGroup` | alpaka/include/alpaka/core/Cuda.hpp:192-288 | Only `DimInt<1>` to `DimInt<4>` are given, and only to types the classifier accepts |
| `CudaTypes.ClassifierShape` | alpaka/include/alpaka/core/Cuda.hpp:122-185 | The classifier accepts exactly the vector types of width 1 to 4 over the twelve scalars, `dim3`, and the four clang built-in variable types, the last only under clang; it rejects every other type |
| `CudaTypes.VectorTypeListed` | alpaka/include/alpaka/core/Cuda.hpp:127-175 | Every `T1`…`T4` vector type is listed by the classifier and by the `DimType` specialisation of its width |
| `CudaTypes.GroupShape` | alpaka/include/alpaka/core/Cuda.hpp:192-288 | `DimType` group k lists exactly the k-component vector types, plus `dim3` and (under clang) the built-in variable types when k = 3 |
| `CudaTypes.DimGroupsPartitionClassifier` | alpaka/include/alpaka/core/Cuda.hpp:122-288 | The four `DimType` groups are pairwise disjoint, and their union is exactly the set the classifier accepts |
| `CudaTypes.DimOf` | alpaka/include/alpaka/core/Cuda.hpp:192-288 | Defined only on classified types; gives a dimension from 1 to 4, namely that of the one `DimType` group listing the type |
| `CudaTypes.DimOfShape` | alpaka/include/alpaka/core/Cuda.hpp:238-265 | A vector type's dimension is its width; `dim3` and the clang built-in index types have dimension 3 |
| `CudaTypes.DimOfToolchainIndependent` | alpaka/include/alpaka/core/Cuda.hpp:256-261 | Under clang the classifier accepts exactly what it accepts under nvcc plus the four built-in variable types, which nvcc rejects; a type accepted under nvcc has the same dimension under both |
| `CudaTypes.Fields` | alpaka/include/alpaka/core/Cuda.hpp:192-300 | Every classified struct declares 1 to 4 members, all of one type |
| `CudaTypes.DimIsComponentCount` | alpaka/include/alpaka/core/Cuda.hpp:192-288 | The dimension from the `DimType` lists equals the number of members the native struct declares |
| `CudaTypes.ElemType` | alpaka/include/alpaka/core/Cuda.hpp:290-300 | Defined only on classified types; it is the declared type of member `x`, and every member of the struct has that type |
| `CudaTypes.IdxType` | alpaka/include/alpaka/core/Cuda.hpp:631-641 | Defined only on classified types; it is `std::size_t` for each of them, whatever its element type |
| `CudaAxis.SpecialisationSelection` | alpaka/include/alpaka/core/Cuda.hpp:308-377 | For dimension k in 1..4, a specialisation (guard `Dim >= c+1`, key `Dim - (c+1)` in `size_t`) applies to axis a iff a < k, and then only the one for member k-1-a |
| `CudaAxis.GetExtent` | alpaka/include/alpaka/core/Cuda.hpp:308-377 | Needs a well-formed value and an axis below its dimension; returns native member `K - 1 - a` |
| `CudaAxis.WithExtent` | alpaka/include/alpaka/core/Cuda.hpp:380-465 | For a type whose members can be assigned, replaces native member `K - 1 - a` with the value and keeps the type and every other member |
| `CudaAxis.GetOffset` | alpaka/include/alpaka/core/Cuda.hpp:472-541 | Same domain and same member `K - 1 - a` as the extent getter |
| `CudaAxis.WithOffset` | alpaka/include/alpaka/core/Cuda.hpp:544-629 | For a type whose members can be assigned, replaces native member `K - 1 - a` and keeps everything else, as the extent setter does |
| `CudaAxis.AxisComponentTable` | alpaka/include/alpaka/core/Cuda.hpp:308-377 | Axis K-1 reads `x`, K-2 reads `y`, K-3 reads `z`, K-4 reads `w`, whenever that axis exists |
| `CudaAxis.ThreeDimensionalAxes` | alpaka/include/alpaka/core/Cuda.hpp:238-265 | For `dim3`, the `T3` types and the clang index types, axis 0 is `z`, axis 1 is `y` and axis 2 is `x` |
| `CudaAxis.ExtentRoundTrip` | alpaka/include/alpaka/core/Cuda.hpp:308-465 | Getting an axis after setting it returns the value set |
| `CudaAxis.ExtentFrame` | alpaka/include/alpaka/core/Cuda.hpp:380-465 | Setting one axis leaves every other axis's value unchanged |
| `CudaAxis.ExtentSetOfGet` | alpaka/include/alpaka/core/Cuda.hpp:308-465 | Writing back the value an axis holds leaves the vector unchanged |
| `CudaAxis.ExtentSetOverwrites` | alpaka/include/alpaka/core/Cuda.hpp:380-465 | Two sets of one axis leave only the second value |
| `CudaAxis.ExtentSetsCommute` | alpaka/include/alpaka/core/Cuda.hpp:380-465 | Sets of two different axes give the same vector in either order |
| `CudaAxis.ExtentsDetermineValue` | alpaka/include/alpaka/core/Cuda.hpp:308-377 | Two values of one type that agree on every axis are equal: the axes reach every native member |
| `CudaAxis.OffsetAgreesWithExtent` | alpaka/include/alpaka/core/Cuda.hpp:308-629 | The offset getter coincides with the extent getter on every type; on a type whose members can be assigned the setters coincide too, so an offset written on axis a reads back as that axis's extent |
| `CudaAxis.NativeVar.SetExtent` | alpaka/include/alpaka/core/Cuda.hpp:380-465 | In-place update: the variable afterwards holds its old value with member `K - 1 - a` replaced; the axis reads back the value set |
| `CudaAxis.NativeVar.SetOffset` | alpaka/include/alpaka/core/Cuda.hpp:544-629 | In-place update of member `K - 1 - a` only, as the offset setter specialisations assign |
| `DecimalText.NatToString` | alpaka/include/alpaka/core/Cuda.hpp:79 | The numeral of a natural number is a non-empty run of digits with no leading zero |
| `DecimalText.IntToString` | alpaka/include/alpaka/core/Cuda.hpp:79 | `std::to_string(line)` is non-empty; it starts with `-` iff the number is negative, and all its other characters are digits |
| `DecimalText.NatToStringRoundTrip` | alpaka/include/alpaka/core/Cuda.hpp:79 | Parsing the numeral of n gives n back |
| `DecimalText.IntToStringRoundTrip` | alpaka/include/alpaka/core/Cuda.hpp:79 | Parsing `to_string(n)` gives n back, for negative numbers too |
| `DecimalText.IntToStringInjective` | alpaka/include/alpaka/core/Cuda.hpp:79 | Different line numbers render differently |
| `CudaDrvCheck.CallSite` | alpaka/include/alpaka/core/Cuda.hpp:78-80 | The call-site prefix starts with `file(` and ends with the call text followed by ` : '` |
| `CudaDrvCheck.LookupReport` | alpaka/include/alpaka/core/Cuda.hpp:81-93 | When both lookups succeed it starts with the name and ends with `': '`, the description and `'!`; otherwise it is at most the two markers long, whatever the lookups' texts |
| `CudaDrvCheck.ErrorMessage` | alpaka/include/alpaka/core/Cuda.hpp:78-93 | Every diagnostic starts with the call-site prefix `file(line) desc : '` |
| `CudaDrvCheck.DrvCheck` | alpaka/include/alpaka/core/Cuda.hpp:64-99 | Returns normally iff the status is `CUDA_SUCCESS`; otherwise throws the message composed from both lookups; writes that same message and a newline to `std::cerr` iff it throws and the debug level is at least minimal |
| `CudaDrvCheck.MessageWhenLookupsSucceed` | alpaka/include/alpaka/core/Cuda.hpp:78-84 | When both lookups succeed, the message is exactly `file + "(" + to_string(line) + ") " + desc + " : '" + name + "': '" + description + "'!"` |
| `CudaDrvCheck.FailedLookupHidesText` | alpaka/include/alpaka/core/Cuda.hpp:81-93 | When either lookup fails, the message depends only on the two lookup statuses, not on any text either lookup returned |
| `CudaDrvCheck.FailedLookupMarkers` | alpaka/include/alpaka/core/Cuda.hpp:85-93 | When either lookup fails: the name marker follows the prefix iff `cuGetErrorName` returned invalid value; the message ends with the description marker iff `cuGetErrorString` did; any other status adds no characters |
| `CudaDrvCheck.MessageLocatesCall` | alpaka/include/alpaka/core/Cuda.hpp:78-80 | The message holds `file(`, then the digits of the line, then `) `; those digits parse back to the line number |

## Left out

- The driver calls `cuGetErrorName` and `cuGetErrorString` (lines 76-77) are foreign code. They become function parameters that map a status to the lookup's own status and its text.
- The `CUresult` values are plain integers: `CUDA_SUCCESS` is 0 and `CUDA_ERROR_INVALID_VALUE` is 1, as in CUDA's `cuda.h`, which is not part of this model. `ALPAKA_DEBUG_MINIMAL` is 1, as in alpaka's `Debug.hpp`, which is not part of this model either.
- The `std::cerr` write is modelled as the string the method returns. `std::endl` becomes a trailing newline, and the stream flush is not modelled.
- The `ALPAKA_DEBUG_BREAK` hook (line 97) is not modelled: it is a debugger trap with no effect on the result.
- A thrown `std::runtime_error` is modelled as an `Outcome` value, not as a C++ exception that unwinds the stack.
- The `ALPAKA_CUDA_DRV_CHECK` macro (lines 106-107) and the `ALPAKA_API_PREFIX`/concat macros (lines 51-54) are preprocessor work. The call text, file and line are explicit parameters instead.
- The compiler and CUDA-version `#error` guards (lines 12-18, 43-49) are not modelled: they are build configuration. The final include of `UniformCudaHip.hpp` (line 645) is not part of this model.
- Component values are of a type parameter. Nothing computes on them, so floating-point behaviour is not modelled. The scalar tag that `ElemType` returns is not tied to that type parameter.
- `CudaAxis.WithExtent`, `CudaAxis.WithOffset`, `CudaAxis.NativeVar.SetExtent`, `CudaAxis.NativeVar.SetOffset` and `CudaAxis.ExtentRoundTrip` take the value as already being of the member type. The header's setters take any `TExtentVal`/`TOffset` (lines 382, 394, 546, 558) and assign it, which converts it implicitly: a `std::size_t` stored into a `dim3` or `uint3` member is reduced modulo 2^32, and an integer stored into a `float` member is rounded. Those conversions are not modelled, so the round trip holds here for every value but in C++ only for values the member type represents.
- `CudaAxis.WithExtent`, `CudaAxis.WithOffset`, `CudaAxis.NativeVar.SetExtent` and `CudaAxis.NativeVar.SetOffset` model the evident intent: an in-place update of one member. The header's setters take the vector as `const &`, so a real instantiation of them would not compile; the model does not reproduce that.
- `CudaAxis.WithExtent`, `CudaAxis.WithOffset`, `CudaAxis.NativeVar.SetExtent` and `CudaAxis.NativeVar.SetOffset` require a type whose members can be assigned. The clang built-in variable types expose `x`, `y` and `z` as read-only properties with a deleted assignment operator, so the setter specialisations cannot be instantiated for them; the getters can.
- The member layouts of `dim3` (three `unsigned int` members) and of the clang built-in variable types (three `unsigned int` read-only properties) come from CUDA's `vector_types.h` and clang's built-in variable header. Neither header is part of this model.
- Misuse is a compile-time error in C++ and a precondition here. This covers a type outside the classifier's set and an axis that is not below the dimension.
