/**
 Shared vocabulary of the GPU cumulative-sum implementation: the dimension
 roles a cumulative-sum kernel can run along, the element data types and
 layout formats an output tensor can have, and a few small helpers over
 sequences.
 */
module CumSumTypes {

  /** The dimension role a cumulative sum runs along (the kernel selector's axis enumeration). */
  datatype CumSumAxis = Batch | Feature | W | Z | Y | X

  /** Element data types. The four named ones are those the cumulative-sum file mentions;
      every other type the engine knows is an `OtherType`. */
  datatype DataType = I32 | I64 | F16 | F32 | OtherType(name: string)

  /** Layout formats. `Bfyx`, `Bfzyx` and `Bfwzyx` are the plain batch-feature-spatial
      orderings of rank 4, 5 and 6; every other format is an `OtherFormat` carrying its
      own name and dimension count. */
  datatype Format = Bfyx | Bfzyx | Bfwzyx | OtherFormat(name: string, dims: nat)
  {
    /** Number of dimensions the format carries. */
    function Rank(): nat
    {
      match this
      case Bfyx => 4
      case Bfzyx => 5
      case Bfwzyx => 6
      case OtherFormat(_, dims) => dims
    }

    /** True for the three plain orderings whose dimension roles can be read off their names. */
    predicate IsPlain()
    {
      Bfyx? || Bfzyx? || Bfwzyx?
    }

    /** The role of each dimension of a plain format, outermost first, as spelled by the
        format's name (b = batch, f = feature, then the spatial letters). */
    function DimensionRoles(): (roles: seq<CumSumAxis>)
      requires IsPlain()
      ensures |roles| == Rank()
      ensures roles[0] == Batch && roles[1] == Feature && roles[|roles| - 1] == X
    {
      match this
      case Bfyx => [Batch, Feature, Y, X]
      case Bfzyx => [Batch, Feature, Z, Y, X]
      case Bfwzyx => [Batch, Feature, W, Z, Y, X]
    }
  }

  /** A tensor layout, reduced to what the cumulative-sum implementation reads from it. */
  datatype Layout = Layout(dataType: DataType, format: Format)
  {
    /** The layout's rank is the dimension count of its format. */
    function Rank(): nat
    {
      format.Rank()
    }
  }

  /** No element occurs twice. */
  predicate Distinct<T(==)>(s: seq<T>)
  {
    forall i, j :: 0 <= i < j < |s| ==> s[i] != s[j]
  }

  /** The set of elements of a sequence. */
  function Elements<T>(s: seq<T>): set<T>
  {
    set x | x in s
  }

  /** A sequence without repetitions has as many distinct elements as it has positions. */
  lemma {:induction false} DistinctElementsCount<T>(s: seq<T>)
    requires Distinct(s)
    ensures |Elements(s)| == |s|
  {
    if s != [] {
      var tail := s[1..];
      assert Distinct(tail) by {
        forall i, j | 0 <= i < j < |tail|
          ensures tail[i] != tail[j]
        {
          assert tail[i] == s[i + 1] && tail[j] == s[j + 1];
        }
      }
      DistinctElementsCount(tail);
      assert s[0] !in Elements(tail) by {
        forall k | 0 <= k < |tail|
          ensures tail[k] != s[0]
        {
          assert tail[k] == s[k + 1];
        }
      }
      assert Elements(s) == {s[0]} + Elements(tail) by {
        assert s == [s[0]] + tail;
      }
    }
  }
}
