/**
 Resolution of a cumulative-sum axis attribute into a kernel dimension role
 (`convert_axis` in the GPU cumulative-sum implementation).

 The attribute is a signed axis index; a negative index counts from the end
 and is wrapped once by adding the output rank. The wrapped index is then
 classified by a fixed case analysis whose spatial cases depend on whether
 the rank is 6, 5 or anything else, and every unmatched index falls back to
 the batch role.
 */
module AxisConversion {
  import opened CumSumTypes

  const TWO_POW_63: int := 0x8000_0000_0000_0000
  const TWO_POW_64: int := 0x1_0000_0000_0000_0000

  /** Values of a signed 64-bit integer. */
  type Int64 = x: int | -TWO_POW_63 <= x < TWO_POW_63

  /** Values of an unsigned 64-bit integer (the source's `size_t`). */
  type UInt64 = x: int | 0 <= x < TWO_POW_64

  /** A negative axis counts from the end: it is wrapped once by adding the rank. The
      result is a valid position exactly when the axis lies in -rank..rank-1, and a
      negative axis -k that wraps to a position names the k-th dimension from the end. */
  function NormalizeAxis(axis: int, rank: nat): (r: int)
    ensures 0 <= r < rank <==> -(rank as int) <= axis < rank
    ensures axis < 0 && 0 <= r ==> rank - r == -axis
  {
    if axis < 0 then axis + rank else axis
  }

  /** The switch on an already wrapped index: the spatial cases depend on whether the rank
      is 6, 5 or anything else, and every unmatched index is `Batch`. */
  function RoleOfIndex(index: int, rank: nat): CumSumAxis
  {
    match index
    case 0 => Batch
    case 1 => Feature
    case 2 => if rank == 6 then W else if rank == 5 then Z else Y
    case 3 => if rank == 6 then Z else if rank == 5 then Y else X
    case 4 => if rank == 6 then Y else X
    case 5 => X
    case _ => Batch
  }

  /** The dimension role of `axis` for an output of the given rank. Total: `Batch` is
      produced for a wrapped index of 0 and, as a fallback, for every index outside 0..5;
      for ranks 4, 5 and 6 a valid axis gets the role that bfyx, bfzyx or bfwzyx spells at
      the wrapped position. */
  function ConvertAxis(axis: int, rank: nat): (r: CumSumAxis)
    ensures r == Batch <==>
              (NormalizeAxis(axis, rank) == 0 || !(0 <= NormalizeAxis(axis, rank) <= 5))
    ensures rank == 4 && 0 <= NormalizeAxis(axis, rank) < 4 ==>
              r == Bfyx.DimensionRoles()[NormalizeAxis(axis, rank)]
    ensures rank == 5 && 0 <= NormalizeAxis(axis, rank) < 5 ==>
              r == Bfzyx.DimensionRoles()[NormalizeAxis(axis, rank)]
    ensures rank == 6 && 0 <= NormalizeAxis(axis, rank) < 6 ==>
              r == Bfwzyx.DimensionRoles()[NormalizeAxis(axis, rank)]
  {
    RoleOfIndex(NormalizeAxis(axis, rank), rank)
  }

  /** Two's-complement reinterpretation of a 64-bit pattern as a signed value. */
  function ToInt64(bits: UInt64): (r: Int64)
    ensures r % TWO_POW_64 == bits
  {
    if bits < TWO_POW_63 then bits else bits - TWO_POW_64
  }

  /** The wrap as the machine performs it: `axis += rank` with a signed 64-bit axis and an
      unsigned 64-bit rank converts the axis to unsigned, adds modulo 2^64 and stores the
      bit pattern back into the signed axis. The result is the wrapped axis modulo 2^64,
      and for every rank below 2^63 it is exactly the unbounded `NormalizeAxis`. */
  function MachineNormalizeAxis(axis: Int64, rank: UInt64): (r: Int64)
    ensures r % TWO_POW_64 == NormalizeAxis(axis, rank) % TWO_POW_64
    ensures rank < TWO_POW_63 ==> r == NormalizeAxis(axis, rank)
  {
    if axis < 0 then ToInt64((axis % TWO_POW_64 + rank) % TWO_POW_64) else axis
  }

  /** `convert_axis` as the machine runs it, the switch applied to the 64-bit wrap. */
  function MachineConvertAxis(axis: Int64, rank: UInt64): CumSumAxis
  {
    RoleOfIndex(MachineNormalizeAxis(axis, rank), rank)
  }

  /** For every 64-bit axis and every 64-bit rank the machine resolution equals the
      unbounded model: where the 64-bit sum overflows, both indices lie outside 0..5. */
  lemma MachineConvertAxisAgrees(axis: Int64, rank: UInt64)
    ensures MachineConvertAxis(axis, rank) == ConvertAxis(axis, rank)
  {
  }

  /** A negative axis is wrapped by adding the rank; a non-negative axis is used as is. */
  lemma NormalizeAxisWrapsNegative(axis: int, rank: nat)
    ensures axis < 0 ==> NormalizeAxis(axis, rank) == axis + rank
    ensures axis >= 0 ==> NormalizeAxis(axis, rank) == axis
    ensures -(rank as int) <= axis < 0 ==> ConvertAxis(axis, rank) == ConvertAxis(axis + rank, rank)
  {
  }

  /** Axis 0 is the batch and axis 1 the feature dimension, whatever the rank. */
  lemma BatchAndFeatureForEveryRank(rank: nat)
    ensures ConvertAxis(0, rank) == Batch
    ensures ConvertAxis(1, rank) == Feature
    ensures rank >= 1 ==> ConvertAxis(-(rank as int), rank) == Batch
    ensures rank >= 2 ==> ConvertAxis(1 - rank, rank) == Feature
  {
  }

  /** The spatial axes 2..5 resolve by rank: 6 selects w-z-y-x, 5 selects z-y-x, and every
      other rank (not only 4) selects y-x, with the surplus indices all landing on `X`. */
  lemma SpatialRolesByRank(rank: nat)
    ensures ConvertAxis(2, rank) == (if rank == 6 then W else if rank == 5 then Z else Y)
    ensures ConvertAxis(3, rank) == (if rank == 6 then Z else if rank == 5 then Y else X)
    ensures ConvertAxis(4, rank) == (if rank == 6 then Y else X)
    ensures ConvertAxis(5, rank) == X
  {
  }

  /** The batch role is produced exactly for a wrapped index of 0 or one outside 0..5:
      out-of-range input never fails, it silently becomes `Batch`. */
  lemma FallbackToBatch(axis: int, rank: nat)
    ensures ConvertAxis(axis, rank) == Batch <==>
              (NormalizeAxis(axis, rank) == 0 || !(0 <= NormalizeAxis(axis, rank) <= 5))
    ensures axis >= 6 ==> ConvertAxis(axis, rank) == Batch
    ensures axis < -(rank as int) ==> ConvertAxis(axis, rank) == Batch
  {
  }

  /** The role of every valid axis of a plain layout is the role its format spells at that
      position: `convert_axis` reads the dimension order of bfyx, bfzyx and bfwzyx. */
  lemma ConvertAxisFollowsDimensionOrder(axis: int, f: Format)
    requires f.IsPlain()
    requires -(f.Rank() as int) <= axis < f.Rank()
    ensures 0 <= NormalizeAxis(axis, f.Rank()) < f.Rank()
    ensures ConvertAxis(axis, f.Rank()) == f.DimensionRoles()[NormalizeAxis(axis, f.Rank())]
  {
  }

  /** The dimension order of each plain format names every role at most once. */
  lemma DimensionRolesDistinct(f: Format)
    requires f.IsPlain()
    ensures Distinct(f.DimensionRoles())
  {
  }

  /** For ranks 4, 5 and 6 no two valid axes share a role, counting a negative axis and its
      wrapped counterpart as the same axis. */
  lemma ConvertAxisInjective(a: int, b: int, rank: nat)
    requires rank == 4 || rank == 5 || rank == 6
    requires -(rank as int) <= a < rank && -(rank as int) <= b < rank
    requires ConvertAxis(a, rank) == ConvertAxis(b, rank)
    ensures NormalizeAxis(a, rank) == NormalizeAxis(b, rank)
  {
    var f := if rank == 4 then Bfyx else if rank == 5 then Bfzyx else Bfwzyx;
    ConvertAxisFollowsDimensionOrder(a, f);
    ConvertAxisFollowsDimensionOrder(b, f);
    DimensionRolesDistinct(f);
  }

  /** For ranks 4, 5 and 6 the last axis, whether written -1 or rank-1, is always `X`. */
  lemma LastAxisIsX(rank: nat)
    requires rank == 4 || rank == 5 || rank == 6
    ensures ConvertAxis(-1, rank) == X
    ensures ConvertAxis(rank - 1, rank) == X
  {
  }

  /** Beyond the valid range the mapping is not injective: on a rank-4 output the indices
      3, 4 and 5 all resolve to `X`, and -5 (wrapping to -1) resolves to `Batch` like 0. */
  lemma OutOfRangeIndicesCollide()
    ensures ConvertAxis(3, 4) == X && ConvertAxis(4, 4) == X && ConvertAxis(5, 4) == X
    ensures ConvertAxis(-5, 4) == Batch && ConvertAxis(7, 4) == Batch
    ensures ConvertAxis(-1, 5) == X && ConvertAxis(2, 6) == W && ConvertAxis(2, 3) == Y
  {
  }
}
