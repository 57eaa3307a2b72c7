/**
 * The `GetExtent`/`SetExtent` and `GetOffset`/`SetOffset` trait
 * specialisations that let a CUDA vector value serve as an N-dimensional
 * extent or offset.
 *
 * Logical axis 0 is the innermost (fastest varying) axis and axis `K - 1` the
 * outermost, while the native components are declared `x`, `y`, `z`, `w`.
 * The header writes one specialisation per native component: the one for
 * component `c` (0 = `x`, ..., 3 = `w`) is enabled when `Dim >= c + 1` and is
 * keyed on axis `Dim - (c + 1)`. So axis `a` touches component `K - 1 - a`.
 */
module CudaAxis {
  import opened CudaTypes

  /**
   * A value of a native CUDA type: the type and its components in
   * declaration order (`comps[0]` is `x`). Nothing here computes on the
   * component values, so their type is a parameter.
   */
  datatype Native<E> = Native(ty: CType, comps: seq<E>)
  {
    /** Member `x`. */
    function X(): E requires |comps| >= 1 { comps[0] }
    /** Member `y`. */
    function Y(): E requires |comps| >= 2 { comps[1] }
    /** Member `z`. */
    function Z(): E requires |comps| >= 3 { comps[2] }
    /** Member `w`. */
    function W(): E requires |comps| >= 4 { comps[3] }
  }

  /** `v` is a value of a classified type and has as many components as the type's dimension. */
  predicate WellFormed<E>(tc: Toolchain, v: Native<E>)
  {
    IsCudaBuiltInType(v.ty, tc) && |v.comps| == DimOf(v.ty, tc)
  }

  /** `std::size_t` subtraction, which wraps modulo 2^64. */
  function SizeSub(m: nat, n: nat): nat
  {
    (m - n) % 0x1_0000_0000_0000_0000
  }

  /**
   * Whether the specialisation written for native component `c` applies to
   * axis `a` of a type of dimension `k`: its `enable_if` requires `Dim >= c + 1`
   * and its axis key is `DimInt<Dim - (c + 1)u>`.
   */
  predicate Specialises(k: nat, c: nat, a: nat)
  {
    c < 4 && k >= c + 1 && a == SizeSub(k, c + 1)
  }

  /**
   * For a dimension `k` from 1 to 4, some specialisation applies to axis `a`
   * exactly when `a < k`, and then only the one for component `k - 1 - a`:
   * every valid axis is served, unambiguously, and every other axis is a
   * compile-time error.
   */
  lemma SpecialisationSelection(k: nat, a: nat)
    requires 1 <= k <= 4
    ensures (exists c :: Specialises(k, c, a)) <==> a < k
    ensures forall c :: Specialises(k, c, a) ==> c == k - 1 - a
  {
    if a < k {
      assert Specialises(k, k - 1 - a, a);
    }
  }

  /** `GetExtent<DimInt<a>>::getExtent(v)`. */
  function GetExtent<E>(tc: Toolchain, v: Native<E>, a: nat): (r: E)
    requires WellFormed(tc, v) && a < DimOf(v.ty, tc)
    ensures r == v.comps[DimOf(v.ty, tc) - 1 - a]
  {
    var k := DimOf(v.ty, tc);
    if Specialises(k, 0, a) then v.X()
    else if Specialises(k, 1, a) then v.Y()
    else if Specialises(k, 2, a) then v.Z()
    else v.W()
  }

  /** The value `SetExtent<DimInt<a>>::setExtent(v, val)` leaves in `v`. */
  function WithExtent<E>(tc: Toolchain, v: Native<E>, a: nat, val: E): (r: Native<E>)
    requires WellFormed(tc, v) && HasAssignableMembers(v.ty) && a < DimOf(v.ty, tc)
    ensures WellFormed(tc, r) && r.ty == v.ty
    ensures r.comps == v.comps[DimOf(v.ty, tc) - 1 - a := val]
  {
    var k := DimOf(v.ty, tc);
    if Specialises(k, 0, a) then v.(comps := v.comps[0 := val])
    else if Specialises(k, 1, a) then v.(comps := v.comps[1 := val])
    else if Specialises(k, 2, a) then v.(comps := v.comps[2 := val])
    else v.(comps := v.comps[3 := val])
  }

  /** `GetOffset<DimInt<a>>::getOffset(v)`. */
  function GetOffset<E>(tc: Toolchain, v: Native<E>, a: nat): (r: E)
    requires WellFormed(tc, v) && a < DimOf(v.ty, tc)
    ensures r == v.comps[DimOf(v.ty, tc) - 1 - a]
  {
    var k := DimOf(v.ty, tc);
    if Specialises(k, 0, a) then v.X()
    else if Specialises(k, 1, a) then v.Y()
    else if Specialises(k, 2, a) then v.Z()
    else v.W()
  }

  /** The value `SetOffset<DimInt<a>>::setOffset(v, val)` leaves in `v`. */
  function WithOffset<E>(tc: Toolchain, v: Native<E>, a: nat, val: E): (r: Native<E>)
    requires WellFormed(tc, v) && HasAssignableMembers(v.ty) && a < DimOf(v.ty, tc)
    ensures WellFormed(tc, r) && r.ty == v.ty
    ensures r.comps == v.comps[DimOf(v.ty, tc) - 1 - a := val]
  {
    var k := DimOf(v.ty, tc);
    if Specialises(k, 0, a) then v.(comps := v.comps[0 := val])
    else if Specialises(k, 1, a) then v.(comps := v.comps[1 := val])
    else if Specialises(k, 2, a) then v.(comps := v.comps[2 := val])
    else v.(comps := v.comps[3 := val])
  }

  /**
   * For dimension `K`, axis `K - 1` reads `x`, `K - 2` reads `y`, `K - 3`
   * reads `z` and `K - 4` reads `w`.
   */
  lemma AxisComponentTable<E>(tc: Toolchain, v: Native<E>)
    requires WellFormed(tc, v)
    ensures var k := DimOf(v.ty, tc);
      && GetExtent(tc, v, k - 1) == v.X()
      && (k >= 2 ==> GetExtent(tc, v, k - 2) == v.Y())
      && (k >= 3 ==> GetExtent(tc, v, k - 3) == v.Z())
      && (k >= 4 ==> GetExtent(tc, v, k - 4) == v.W())
  {
  }

  /**
   * `dim3`, `uint3` and the clang built-in index types: axis 0 is `z`,
   * axis 1 is `y`, axis 2 is `x`.
   */
  lemma ThreeDimensionalAxes<E>(tc: Toolchain, v: Native<E>)
    requires WellFormed(tc, v)
    requires v.ty == Dim3 || v.ty.ClangBuiltin? || (v.ty.Vector? && v.ty.width == 3)
    ensures GetExtent(tc, v, 0) == v.Z()
    ensures GetExtent(tc, v, 1) == v.Y()
    ensures GetExtent(tc, v, 2) == v.X()
  {
  }

  /** Getting an axis after setting it gives the value set. */
  lemma ExtentRoundTrip<E>(tc: Toolchain, v: Native<E>, a: nat, val: E)
    requires WellFormed(tc, v) && HasAssignableMembers(v.ty) && a < DimOf(v.ty, tc)
    ensures GetExtent(tc, WithExtent(tc, v, a, val), a) == val
  {
  }

  /** Setting an axis leaves every other axis as it was. */
  lemma ExtentFrame<E>(tc: Toolchain, v: Native<E>, a: nat, b: nat, val: E)
    requires WellFormed(tc, v) && HasAssignableMembers(v.ty)
    requires a < DimOf(v.ty, tc) && b < DimOf(v.ty, tc) && a != b
    ensures GetExtent(tc, WithExtent(tc, v, a, val), b) == GetExtent(tc, v, b)
  {
  }

  /** Writing back the value an axis holds changes nothing. */
  lemma ExtentSetOfGet<E>(tc: Toolchain, v: Native<E>, a: nat)
    requires WellFormed(tc, v) && HasAssignableMembers(v.ty) && a < DimOf(v.ty, tc)
    ensures WithExtent(tc, v, a, GetExtent(tc, v, a)) == v
  {
  }

  /** A second set of the same axis overrides the first. */
  lemma ExtentSetOverwrites<E>(tc: Toolchain, v: Native<E>, a: nat, p: E, q: E)
    requires WellFormed(tc, v) && HasAssignableMembers(v.ty) && a < DimOf(v.ty, tc)
    ensures WithExtent(tc, WithExtent(tc, v, a, p), a, q) == WithExtent(tc, v, a, q)
  {
  }

  /** Sets of two different axes commute. */
  lemma ExtentSetsCommute<E>(tc: Toolchain, v: Native<E>, a: nat, b: nat, p: E, q: E)
    requires WellFormed(tc, v) && HasAssignableMembers(v.ty)
    requires a < DimOf(v.ty, tc) && b < DimOf(v.ty, tc) && a != b
    ensures WithExtent(tc, WithExtent(tc, v, a, p), b, q) == WithExtent(tc, WithExtent(tc, v, b, q), a, p)
  {
  }

  /**
   * Two values of one type that agree on every axis are equal: the axes
   * reach every native component.
   */
  lemma ExtentsDetermineValue<E>(tc: Toolchain, v: Native<E>, u: Native<E>)
    requires WellFormed(tc, v) && WellFormed(tc, u) && v.ty == u.ty
    requires forall a :: 0 <= a < DimOf(v.ty, tc) ==> GetExtent(tc, v, a) == GetExtent(tc, u, a)
    ensures v == u
  {
    var k := DimOf(v.ty, tc);
    forall i | 0 <= i < k ensures v.comps[i] == u.comps[i] {
      assert GetExtent(tc, v, k - 1 - i) == GetExtent(tc, u, k - 1 - i);
    }
  }

  /**
   * The offset accessors use the same axis-to-component mapping as the
   * extent accessors, so, for a type whose members can be assigned, an
   * offset written on an axis reads back as that axis's extent.
   */
  lemma OffsetAgreesWithExtent<E>(tc: Toolchain, v: Native<E>, a: nat, val: E)
    requires WellFormed(tc, v) && a < DimOf(v.ty, tc)
    ensures GetOffset(tc, v, a) == GetExtent(tc, v, a)
    ensures HasAssignableMembers(v.ty) ==>
      && WithOffset(tc, v, a, val) == WithExtent(tc, v, a, val)
      && GetExtent(tc, WithOffset(tc, v, a, val), a) == val
  {
  }

  /**
   * An lvalue of a native CUDA type, which the setter specialisations
   * update in place: each assigns exactly one member.
   */
  class NativeVar<E> {
    const ty: CType
    var comps: seq<E>

    constructor (ty: CType, comps: seq<E>)
      ensures this.ty == ty && this.comps == comps
    {
      this.ty := ty;
      this.comps := comps;
    }

    /** The value currently held. */
    function Value(): Native<E>
      reads this
    {
      Native(ty, comps)
    }

    /** `SetExtent<DimInt<a>>::setExtent(*this, val)`. */
    method SetExtent(tc: Toolchain, a: nat, val: E)
      requires WellFormed(tc, Value()) && HasAssignableMembers(ty) && a < DimOf(ty, tc)
      modifies this
      ensures Value() == WithExtent(tc, old(Value()), a, val)
      ensures GetExtent(tc, Value(), a) == val
    {
      var k := DimOf(ty, tc);
      if Specialises(k, 0, a) {
        comps := comps[0 := val];
      } else if Specialises(k, 1, a) {
        comps := comps[1 := val];
      } else if Specialises(k, 2, a) {
        comps := comps[2 := val];
      } else {
        comps := comps[3 := val];
      }
    }

    /** `SetOffset<DimInt<a>>::setOffset(*this, val)`. */
    method SetOffset(tc: Toolchain, a: nat, val: E)
      requires WellFormed(tc, Value()) && HasAssignableMembers(ty) && a < DimOf(ty, tc)
      modifies this
      ensures Value() == WithOffset(tc, old(Value()), a, val)
      ensures GetOffset(tc, Value(), a) == val
    {
      var k := DimOf(ty, tc);
      if Specialises(k, 0, a) {
        comps := comps[0 := val];
      } else if Specialises(k, 1, a) {
        comps := comps[1 := val];
      } else if Specialises(k, 2, a) {
        comps := comps[2 := val];
      } else {
        comps := comps[3 := val];
      }
    }
  }
}
