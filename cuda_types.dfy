/**
 * The CUDA vector types that alpaka accepts as N-dimensional extents, offsets
 * and indices: the classifier `IsCudaBuiltInType`, the `DimType`, `ElemType`
 * and `IdxType` trait specialisations, and the field layout of each native
 * struct against which they are checked.
 *
 * A C++ type is a value of `CType`. Membership is type identity, so every list
 * below is written out member by member in the order the header lists it.
 */
module CudaTypes {

  /** The scalar component types that CUDA's vector types are built from. */
  datatype Scalar =
    | Char | Double | Float | Int | Long | LongLong
    | Short | UChar | UInt | ULong | ULongLong | UShort

  /** The special types clang gives the kernel built-in variables. */
  datatype BuiltinVar = ThreadIdx | BlockIdx | BlockDim | GridDim

  /**
   * A C++ type as far as this layer can tell them apart.
   * `Vector(s, k)` is the CUDA type named after `s` with suffix `k` (`int3` is
   * `Vector(Int, 3)`); a width outside 1..4 names no CUDA type. `Other` stands
   * for every type that is none of these (alpaka's own `Vec`, `int`, ...).
   */
  datatype CType =
    | Vector(scalar: Scalar, width: nat)
    | Dim3
    | ClangBuiltin(which: BuiltinVar)
    | Other(name: string)

  /**
   * Whether the code is compiled by clang's native CUDA front end
   * (`BOOST_COMP_CLANG_CUDA`); only then do the built-in variable types exist.
   */
  datatype Toolchain = Nvcc | ClangCuda

  /** Whether `t` is one of clang's four built-in variable types, which exist only under clang. */
  predicate IsClangBuiltinVarType(t: CType, tc: Toolchain)
  {
    && tc == ClangCuda
    && (|| t == ClangBuiltin(ThreadIdx) || t == ClangBuiltin(BlockIdx)
        || t == ClangBuiltin(BlockDim) || t == ClangBuiltin(GridDim))
  }

  /** `IsCudaBuiltInType<T>::value`: `T` is one of the types listed, compared by identity. */
  predicate IsCudaBuiltInType(t: CType, tc: Toolchain)
    ensures IsCudaBuiltInType(t, tc) ==>
      || (t.Vector? && 1 <= t.width <= 4) || t == Dim3 || (tc == ClangCuda && t.ClangBuiltin?)
  {
    t == Vector(Char, 1)
    || t == Vector(Double, 1)
    || t == Vector(Float, 1)
    || t == Vector(Int, 1)
    || t == Vector(Long, 1)
    || t == Vector(LongLong, 1)
    || t == Vector(Short, 1)
    || t == Vector(UChar, 1)
    || t == Vector(UInt, 1)
    || t == Vector(ULong, 1)
    || t == Vector(ULongLong, 1)
    || t == Vector(UShort, 1)
    || t == Vector(Char, 2)
    || t == Vector(Double, 2)
    || t == Vector(Float, 2)
    || t == Vector(Int, 2)
    || t == Vector(Long, 2)
    || t == Vector(LongLong, 2)
    || t == Vector(Short, 2)
    || t == Vector(UChar, 2)
    || t == Vector(UInt, 2)
    || t == Vector(ULong, 2)
    || t == Vector(ULongLong, 2)
    || t == Vector(UShort, 2)
    || t == Vector(Char, 3)
    || t == Dim3
    || t == Vector(Double, 3)
    || t == Vector(Float, 3)
    || t == Vector(Int, 3)
    || t == Vector(Long, 3)
    || t == Vector(LongLong, 3)
    || t == Vector(Short, 3)
    || t == Vector(UChar, 3)
    || t == Vector(UInt, 3)
    || t == Vector(ULong, 3)
    || t == Vector(ULongLong, 3)
    || t == Vector(UShort, 3)
    || t == Vector(Char, 4)
    || t == Vector(Double, 4)
    || t == Vector(Float, 4)
    || t == Vector(Int, 4)
    || t == Vector(Long, 4)
    || t == Vector(LongLong, 4)
    || t == Vector(Short, 4)
    || t == Vector(UChar, 4)
    || t == Vector(UInt, 4)
    || t == Vector(ULong, 4)
    || t == Vector(ULongLong, 4)
    || t == Vector(UShort, 4)
    || IsClangBuiltinVarType(t, tc)
  }

  /** Whether `t` is listed by the one-dimensional `DimType` specialisation. */
  predicate InDim1Group(t: CType)
    ensures InDim1Group(t) ==> t.Vector? && t.width == 1
  {
    t == Vector(Char, 1)
    || t == Vector(Double, 1)
    || t == Vector(Float, 1)
    || t == Vector(Int, 1)
    || t == Vector(Long, 1)
    || t == Vector(LongLong, 1)
    || t == Vector(Short, 1)
    || t == Vector(UChar, 1)
    || t == Vector(UInt, 1)
    || t == Vector(ULong, 1)
    || t == Vector(ULongLong, 1)
    || t == Vector(UShort, 1)
  }

  /** Whether `t` is listed by the two-dimensional `DimType` specialisation. */
  predicate InDim2Group(t: CType)
    ensures InDim2Group(t) ==> t.Vector? && t.width == 2
  {
    t == Vector(Char, 2)
    || t == Vector(Double, 2)
    || t == Vector(Float, 2)
    || t == Vector(Int, 2)
    || t == Vector(Long, 2)
    || t == Vector(LongLong, 2)
    || t == Vector(Short, 2)
    || t == Vector(UChar, 2)
    || t == Vector(UInt, 2)
    || t == Vector(ULong, 2)
    || t == Vector(ULongLong, 2)
    || t == Vector(UShort, 2)
  }

  /** Whether `t` is listed by the three-dimensional `DimType` specialisation. */
  predicate InDim3Group(t: CType, tc: Toolchain)
    ensures InDim3Group(t, tc) ==>
      || (t.Vector? && t.width == 3) || t == Dim3 || (tc == ClangCuda && t.ClangBuiltin?)
  {
    t == Vector(Char, 3)
    || t == Dim3
    || t == Vector(Double, 3)
    || t == Vector(Float, 3)
    || t == Vector(Int, 3)
    || t == Vector(Long, 3)
    || t == Vector(LongLong, 3)
    || t == Vector(Short, 3)
    || t == Vector(UChar, 3)
    || t == Vector(UInt, 3)
    || t == Vector(ULong, 3)
    || t == Vector(ULongLong, 3)
    || t == Vector(UShort, 3)
    || IsClangBuiltinVarType(t, tc)
  }

  /** Whether `t` is listed by the four-dimensional `DimType` specialisation. */
  predicate InDim4Group(t: CType)
    ensures InDim4Group(t) ==> t.Vector? && t.width == 4
  {
    t == Vector(Char, 4)
    || t == Vector(Double, 4)
    || t == Vector(Float, 4)
    || t == Vector(Int, 4)
    || t == Vector(Long, 4)
    || t == Vector(LongLong, 4)
    || t == Vector(Short, 4)
    || t == Vector(UChar, 4)
    || t == Vector(UInt, 4)
    || t == Vector(ULong, 4)
    || t == Vector(ULongLong, 4)
    || t == Vector(UShort, 4)
  }

  /** Whether the `DimType` specialisation that lists `t` yields `DimInt<k>`. */
  predicate InDimGroup(t: CType, k: nat, tc: Toolchain)
    ensures InDimGroup(t, k, tc) ==> 1 <= k <= 4 && IsCudaBuiltInType(t, tc)
  {
    if k == 1 then InDim1Group(t)
    else if k == 2 then InDim2Group(t)
    else if k == 3 then InDim3Group(t, tc)
    else if k == 4 then InDim4Group(t)
    else false
  }

  /**
   * `IsCudaBuiltInType` accepts exactly the 1- to 4-component vector types,
   * `dim3`, and, under clang, the four built-in variable types.
   */
  lemma ClassifierShape(t: CType, tc: Toolchain)
    ensures IsCudaBuiltInType(t, tc) <==>
              || (t.Vector? && 1 <= t.width <= 4)
              || t == Dim3
              || (tc == ClangCuda && t.ClangBuiltin?)
  {
    if t.Vector? && 1 <= t.width <= 4 {
      VectorTypeListed(t.scalar, t.width, tc);
    } else if tc == ClangCuda && t.ClangBuiltin? {
      match t.which
      case ThreadIdx =>
      case BlockIdx =>
      case BlockDim =>
      case GridDim =>
    }
  }

  /** Every `k`-component vector type, 1 <= k <= 4, is listed by the classifier and in group `k`. */
  lemma VectorTypeListed(s: Scalar, k: nat, tc: Toolchain)
    requires 1 <= k <= 4
    ensures IsCudaBuiltInType(Vector(s, k), tc) && InDimGroup(Vector(s, k), k, tc)
  {
  }

  /** Group `k` holds the `k`-component vector types, plus `dim3` and the clang types for `k == 3`. */
  lemma GroupShape(t: CType, k: nat, tc: Toolchain)
    requires 1 <= k <= 4
    ensures InDimGroup(t, k, tc) <==>
              || (t.Vector? && t.width == k)
              || (k == 3 && (t == Dim3 || (tc == ClangCuda && t.ClangBuiltin?)))
  {
    if t.Vector? && t.width == k {
      VectorTypeListed(t.scalar, k, tc);
    } else if k == 3 && tc == ClangCuda && t.ClangBuiltin? {
      match t.which
      case ThreadIdx =>
      case BlockIdx =>
      case BlockDim =>
      case GridDim =>
    }
  }

  /**
   * The four `DimType` groups are pairwise disjoint and together hold exactly
   * the types `IsCudaBuiltInType` accepts: the two hand-written enumerations agree.
   */
  lemma DimGroupsPartitionClassifier(t: CType, tc: Toolchain)
    ensures IsCudaBuiltInType(t, tc) <==> exists k :: 1 <= k <= 4 && InDimGroup(t, k, tc)
    ensures forall j, k :: 1 <= j <= 4 && 1 <= k <= 4 && InDimGroup(t, j, tc) && InDimGroup(t, k, tc) ==> j == k
  {
    ClassifierShape(t, tc);
    if IsCudaBuiltInType(t, tc) {
      var k := if t.Vector? then t.width else 3;
      GroupShape(t, k, tc);
    }
    forall k | 1 <= k <= 4 && InDimGroup(t, k, tc)
      ensures IsCudaBuiltInType(t, tc) && k == (if t.Vector? then t.width else 3)
    {
      GroupShape(t, k, tc);
    }
  }

  /**
   * `Dim<T>::value`: the `k` of the one `DimType` specialisation that lists
   * `t`. Defined on the classified types only; on any other type the trait
   * has no specialisation here and the program does not compile.
   */
  function DimOf(t: CType, tc: Toolchain): (k: nat)
    requires IsCudaBuiltInType(t, tc)
    ensures 1 <= k <= 4
    ensures InDimGroup(t, k, tc)
  {
    DimGroupsPartitionClassifier(t, tc);
    if InDim1Group(t) then 1
    else if InDim2Group(t) then 2
    else if InDim3Group(t, tc) then 3
    else 4
  }

  /** `dim3` and the clang built-in index types are three-dimensional, as is every `T3`. */
  lemma DimOfShape(t: CType, tc: Toolchain)
    requires IsCudaBuiltInType(t, tc)
    ensures t.Vector? ==> DimOf(t, tc) == t.width
    ensures t == Dim3 || t.ClangBuiltin? ==> DimOf(t, tc) == 3
  {
  }

  /**
   * The clang-only entries add the four built-in variable types and nothing
   * else: every other type is accepted under one toolchain exactly when it is
   * accepted under the other, with the same dimension.
   */
  lemma DimOfToolchainIndependent(t: CType)
    ensures IsCudaBuiltInType(t, ClangCuda) <==> IsCudaBuiltInType(t, Nvcc) || t.ClangBuiltin?
    ensures t.ClangBuiltin? ==> !IsCudaBuiltInType(t, Nvcc)
    ensures IsCudaBuiltInType(t, Nvcc) ==> DimOf(t, Nvcc) == DimOf(t, ClangCuda)
  {
    ClassifierShape(t, Nvcc);
    ClassifierShape(t, ClangCuda);
  }

  /**
   * The declared types of the data members of the native struct, in
   * declaration order `x`, `y`, `z`, `w`. The structs themselves come from
   * CUDA's `vector_types.h` and clang's built-in variable header: `dim3` has
   * three `unsigned int` members, and the built-in variables have three
   * `unsigned int` read-only properties.
   */
  function Fields(t: CType, tc: Toolchain): (r: seq<Scalar>)
    requires IsCudaBuiltInType(t, tc)
    ensures 1 <= |r| <= 4
    ensures forall i :: 0 <= i < |r| ==> r[i] == r[0]
  {
    ClassifierShape(t, tc);
    match t
    case Vector(s, k) => seq(k, _ => s)
    case Dim3 => [UInt, UInt, UInt]
    case ClangBuiltin(_) => [UInt, UInt, UInt]
    case Other(_) => []
  }

  /** The dimension the `DimType` lists give is the number of components the struct declares. */
  lemma DimIsComponentCount(t: CType, tc: Toolchain)
    requires IsCudaBuiltInType(t, tc)
    ensures DimOf(t, tc) == |Fields(t, tc)|
  {
    ClassifierShape(t, tc);
    DimOfShape(t, tc);
  }

  /**
   * `ElemType<T>::type`, the declared type of member `x`; every other
   * component is declared with that same type.
   */
  function ElemType(t: CType, tc: Toolchain): (s: Scalar)
    requires IsCudaBuiltInType(t, tc)
    ensures |Fields(t, tc)| >= 1 && Fields(t, tc)[0] == s
    ensures forall i :: 0 <= i < |Fields(t, tc)| ==> Fields(t, tc)[i] == s
  {
    ClassifierShape(t, tc);
    match t
    case Vector(s, _) => s
    case Dim3 => UInt
    case ClangBuiltin(_) => UInt
    case Other(_) => assert false; Char
  }

  /**
   * An alpaka index type: `std::size_t`, or one of the integer scalar types
   * that a generic extent may use as its index instead (alpaka's
   * `Vec<TDim, TIdx>` takes any integral `TIdx`). Naming the alternatives lets
   * the contract of `IdxType` say which one the CUDA types get: the index type
   * never follows the element type.
   */
  datatype IndexType = SizeT | ScalarIndex(scalar: Scalar)

  /**
   * `IdxType<T>::type`: `std::size_t` for every classified type, whatever its
   * element type; other types get no specialisation here.
   */
  function IdxType(t: CType, tc: Toolchain): (r: IndexType)
    requires IsCudaBuiltInType(t, tc)
    ensures r == SizeT
  {
    SizeT
  }

  /**
   * Whether a setter can assign the members of `t`. The clang built-in
   * variable types expose `x`, `y` and `z` as read-only properties and delete
   * their assignment operator, so no setter specialisation can be
   * instantiated for them.
   */
  predicate HasAssignableMembers(t: CType)
  {
    !t.ClangBuiltin?
  }
}
