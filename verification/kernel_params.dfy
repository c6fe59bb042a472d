/**
 Kernel parameters of the GPU cumulative-sum implementation
 (`cum_sum_impl::get_kernel_params` and `cum_sum_impl::clone`).

 The parameters record which dimension role the sum runs along, and the two
 flags that select an exclusive sum and a reversed direction. The role comes
 from the primitive's axis attribute resolved against the output layout's
 rank; the flags are copied unchanged from the primitive.
 */
module KernelParams {
  import opened CumSumTypes
  import opened AxisConversion

  /** The cumulative-sum primitive as the graph describes it. */
  datatype CumSumPrimitive = CumSumPrimitive(
    id: string,
    axis: int,
    exclusive: bool,
    reverse: bool)

  /** What the parameter builder is given: the primitive and its resolved output layout. */
  datatype KernelImplParams = KernelImplParams(desc: CumSumPrimitive, outputLayout: Layout)

  /** The cumulative-sum specific part of the kernel parameters. */
  datatype CumSumParams = CumSumParams(axis: CumSumAxis, exclusive: bool, reverse: bool)

  /** A built cumulative-sum implementation object, holding the parameters it was built from. */
  datatype CumSumImpl = CumSumImpl(params: CumSumParams)

  /** Derives the kernel parameters. On a plain output layout a valid axis selects the
      role the format's name puts at the wrapped position; an axis whose wrapped index
      falls outside 0..5 silently selects `Batch`; the exclusive and reverse flags are
      carried over as they are. */
  function GetKernelParams(implParams: KernelImplParams): (r: CumSumParams)
    ensures var rank := implParams.outputLayout.Rank();
            var axis := implParams.desc.axis;
            implParams.outputLayout.format.IsPlain() && -(rank as int) <= axis < rank ==>
              0 <= NormalizeAxis(axis, rank) < rank &&
              r.axis == implParams.outputLayout.format.DimensionRoles()[NormalizeAxis(axis, rank)]
    ensures var rank := implParams.outputLayout.Rank();
            !(0 <= NormalizeAxis(implParams.desc.axis, rank) <= 5) ==> r.axis == Batch
    ensures r.exclusive == implParams.desc.exclusive
    ensures r.reverse == implParams.desc.reverse
  {
    var rank := implParams.outputLayout.Rank();
    CumSumParams(ConvertAxis(implParams.desc.axis, rank),
                 implParams.desc.exclusive,
                 implParams.desc.reverse)
  }

  /** A clone is a copy: it is equal to the original, parameters included. */
  function Clone(impl: CumSumImpl): (r: CumSumImpl)
    ensures r == impl
  {
    CumSumImpl(impl.params)
  }

  /** The parameters depend on nothing but the axis, the two flags and the output rank:
      the primitive's id, the output data type and which format provides the rank are
      irrelevant. */
  lemma KernelParamsDeterminedByAttributes(p: KernelImplParams, q: KernelImplParams)
    requires p.desc.axis == q.desc.axis
    requires p.desc.exclusive == q.desc.exclusive
    requires p.desc.reverse == q.desc.reverse
    requires p.outputLayout.Rank() == q.outputLayout.Rank()
    ensures GetKernelParams(p) == GetKernelParams(q)
  {
  }

  /** Writing a valid axis negatively or non-negatively yields the same parameters. */
  lemma KernelParamsNegativeAxisEquivalent(p: KernelImplParams, q: KernelImplParams)
    requires p.outputLayout == q.outputLayout
    requires p.desc.exclusive == q.desc.exclusive && p.desc.reverse == q.desc.reverse
    requires 0 <= p.desc.axis < p.outputLayout.Rank()
    requires q.desc.axis == p.desc.axis - p.outputLayout.Rank()
    ensures GetKernelParams(p) == GetKernelParams(q)
  {
  }
}
