/**
 The (data type, layout format) pairs for which the GPU cumulative-sum
 implementation is registered with the OpenCL backend
 (`attach_cum_sum_impl`).
 */
module CumSumRegistry {
  import opened CumSumTypes

  /** One registration key: an output data type together with a layout format. */
  datatype ImplKey = ImplKey(dataType: DataType, format: Format)

  /** The registration list, in the order it is written. */
  const OclCumSumKeys: seq<ImplKey> := [
    ImplKey(I32, Bfyx), ImplKey(I32, Bfzyx), ImplKey(I32, Bfwzyx),
    ImplKey(I64, Bfyx), ImplKey(I64, Bfzyx), ImplKey(I64, Bfwzyx),
    ImplKey(F16, Bfyx), ImplKey(F16, Bfzyx), ImplKey(F16, Bfwzyx),
    ImplKey(F32, Bfyx), ImplKey(F32, Bfzyx), ImplKey(F32, Bfwzyx)
  ]

  const SupportedTypes: seq<DataType> := [I32, I64, F16, F32]
  const SupportedFormats: seq<Format> := [Bfyx, Bfzyx, Bfwzyx]

  /** True when the OpenCL backend has a cumulative-sum implementation for the pair. */
  predicate IsSupported(dataType: DataType, format: Format): (b: bool)
    ensures b <==> dataType in SupportedTypes && format in SupportedFormats
    ensures b ==> format.IsPlain() && 4 <= format.Rank() <= 6
  {
    ImplKey(dataType, format) in OclCumSumKeys
  }

  /** The keys pairing one data type with each format in turn. */
  function PairWithFormats(t: DataType, fs: seq<Format>): (r: seq<ImplKey>)
    ensures forall k :: k in r <==> k.dataType == t && k.format in fs
  {
    var r := seq(|fs|, i requires 0 <= i < |fs| => ImplKey(t, fs[i]));
    assert forall i :: 0 <= i < |fs| ==> r[i] == ImplKey(t, fs[i]);
    r
  }

  /** All (type, format) pairs, type-major: the shape the registration list is written in. */
  function Product(ts: seq<DataType>, fs: seq<Format>): seq<ImplKey>
    decreases |ts|
  {
    if ts == [] then [] else PairWithFormats(ts[0], fs) + Product(ts[1..], fs)
  }

  /** A key occurs in the product exactly when its type and its format occur in the lists. */
  lemma {:induction false} ProductMembers(ts: seq<DataType>, fs: seq<Format>, k: ImplKey)
    ensures k in Product(ts, fs) <==> k.dataType in ts && k.format in fs
    decreases |ts|
  {
    if ts != [] {
      var head := PairWithFormats(ts[0], fs);
      ProductMembers(ts[1..], fs, k);
      assert Product(ts, fs) == head + Product(ts[1..], fs);
      assert k.dataType in ts <==> k.dataType == ts[0] || k.dataType in ts[1..] by {
        assert ts == [ts[0]] + ts[1..];
      }
    }
  }

  /** Concatenating two repetition-free sequences with no common element stays repetition-free. */
  lemma DistinctConcat<T>(a: seq<T>, b: seq<T>)
    requires Distinct(a) && Distinct(b)
    requires forall x :: x in a ==> x !in b
    ensures Distinct(a + b)
  {
    var c := a + b;
    forall i, j | 0 <= i < j < |c|
      ensures c[i] != c[j]
    {
      if j < |a| {
        assert c[i] == a[i] && c[j] == a[j];
      } else if i >= |a| {
        assert c[i] == b[i - |a|] && c[j] == b[j - |a|];
      } else {
        assert c[i] == a[i] && c[j] == b[j - |a|];
        assert c[i] in a;
      }
    }
  }

  /** The product of repetition-free type and format lists lists every pair once. */
  lemma {:induction false} ProductDistinct(ts: seq<DataType>, fs: seq<Format>)
    requires Distinct(ts) && Distinct(fs)
    ensures Distinct(Product(ts, fs))
    decreases |ts|
  {
    if ts != [] {
      var tail := ts[1..];
      assert Distinct(tail) by {
        forall i, j | 0 <= i < j < |tail|
          ensures tail[i] != tail[j]
        {
          assert tail[i] == ts[i + 1] && tail[j] == ts[j + 1];
        }
      }
      ProductDistinct(tail, fs);
      var head := PairWithFormats(ts[0], fs);
      assert Distinct(head) by {
        forall i, j | 0 <= i < j < |head|
          ensures head[i] != head[j]
        {
          assert head[i].format == fs[i] && head[j].format == fs[j];
        }
      }
      assert ts[0] !in tail by {
        forall k | 0 <= k < |tail|
          ensures tail[k] != ts[0]
        {
          assert tail[k] == ts[k + 1];
        }
      }
      forall x | x in head
        ensures x !in Product(tail, fs)
      {
        ProductMembers(tail, fs, x);
      }
      DistinctConcat(head, Product(tail, fs));
    }
  }

  /** The registration list is exactly the type-major product of the four data types and
      the three plain formats. */
  lemma OclKeysAreProduct()
    ensures OclCumSumKeys == Product(SupportedTypes, SupportedFormats)
  {
  }

  /** A pair is supported exactly when its type is one of i32, i64, f16, f32 and its format
      one of bfyx, bfzyx, bfwzyx; the list has twelve entries, none repeated. */
  lemma OclSupportedExactly()
    ensures forall t, f :: IsSupported(t, f) <==> t in SupportedTypes && f in SupportedFormats
    ensures Distinct(OclCumSumKeys)
    ensures |OclCumSumKeys| == 12
    ensures |Elements(OclCumSumKeys)| == 12
  {
    OclKeysAreProduct();
    forall t, f
      ensures IsSupported(t, f) <==> t in SupportedTypes && f in SupportedFormats
    {
      ProductMembers(SupportedTypes, SupportedFormats, ImplKey(t, f));
    }
    ProductDistinct(SupportedTypes, SupportedFormats);
    DistinctElementsCount(OclCumSumKeys);
  }
}
