/**
 Shared vocabulary of the risk pipeline: an optional value for results that
 can be undefined (a division by zero), the minimum of two reals, the sum of
 a column of reals, and sums grouped by a key column, with the summation
 lemmas the other modules rely on.
 */
module Common {

  /** A value that may be undefined, as a quotient whose divisor is zero. */
  datatype Option<+T> = None | Some(value: T)

  function Min(a: real, b: real): (m: real)
    ensures m <= a && m <= b
    ensures m == a || m == b
  {
    if a <= b then a else b
  }

  /** Multiplying by a non-negative factor keeps an ordering. */
  lemma MulMonotone(a: real, b: real, c: real)
    requires a <= b && c >= 0.0
    ensures a * c <= b * c
  {
  }

  /** Sum of a column, accumulated from the last element. */
  function Sum(s: seq<real>): real
  {
    if |s| == 0 then 0.0 else Sum(s[..|s| - 1]) + s[|s| - 1]
  }

  /** `a[i] * b[i]` for every row. */
  function Products(a: seq<real>, b: seq<real>): (p: seq<real>)
    requires |a| == |b|
    ensures |p| == |a|
    ensures forall i :: 0 <= i < |a| ==> p[i] == a[i] * b[i]
  {
    seq(|a|, i requires 0 <= i < |a| => a[i] * b[i])
  }

  /** `q` is `part / whole * 100`, or undefined when `whole` is zero. */
  function Percent(part: real, whole: real): (q: Option<real>)
    ensures q.Some? <==> whole != 0.0
    ensures q.Some? ==> q.value * whole == part * 100.0
  {
    if whole == 0.0 then None else Some(part / whole * 100.0)
  }

  /** A column of non-negative entries has a non-negative sum. */
  lemma {:induction false} SumNonNegative(s: seq<real>)
    requires forall i :: 0 <= i < |s| ==> s[i] >= 0.0
    ensures Sum(s) >= 0.0
    decreases |s|
  {
    if |s| > 0 {
      SumNonNegative(s[..|s| - 1]);
    }
  }

  /** Summation is monotone under a pointwise ordering of two columns. */
  lemma {:induction false} SumMonotone(a: seq<real>, b: seq<real>)
    requires |a| == |b|
    requires forall i :: 0 <= i < |a| ==> a[i] <= b[i]
    ensures Sum(a) <= Sum(b)
    decreases |a|
  {
    if |a| > 0 {
      SumMonotone(a[..|a| - 1], b[..|b| - 1]);
    }
  }

  /** A column scaled by `c` sums to `c` times the original sum. */
  lemma {:induction false} SumScale(a: seq<real>, b: seq<real>, c: real)
    requires |a| == |b|
    requires forall i :: 0 <= i < |a| ==> b[i] == c * a[i]
    ensures Sum(b) == c * Sum(a)
    decreases |a|
  {
    if |a| > 0 {
      SumScale(a[..|a| - 1], b[..|b| - 1], c);
    }
  }

  /** The sum of a pointwise sum of columns is the sum of their sums. */
  lemma {:induction false} SumAdd(a: seq<real>, b: seq<real>, c: seq<real>)
    requires |a| == |b| == |c|
    requires forall i :: 0 <= i < |c| ==> c[i] == a[i] + b[i]
    ensures Sum(c) == Sum(a) + Sum(b)
    decreases |c|
  {
    if |c| > 0 {
      SumAdd(a[..|a| - 1], b[..|b| - 1], c[..|c| - 1]);
    }
  }

  ghost predicate Distinct<K>(ks: seq<K>)
  {
    forall i, j :: 0 <= i < j < |ks| ==> ks[i] != ks[j]
  }

  /** Sum of the values whose key in the parallel key column is `k`. */
  function GroupSum<K(==)>(keys: seq<K>, vals: seq<real>, k: K): real
    requires |keys| == |vals|
  {
    if |keys| == 0 then 0.0
    else GroupSum(keys[..|keys| - 1], vals[..|vals| - 1], k)
         + (if keys[|keys| - 1] == k then vals[|vals| - 1] else 0.0)
  }

  /** One group sum per requested key, in the order of `ks`. */
  function GroupSums<K(==)>(keys: seq<K>, vals: seq<real>, ks: seq<K>): (sums: seq<real>)
    requires |keys| == |vals|
    ensures |sums| == |ks|
    ensures forall i :: 0 <= i < |ks| ==> sums[i] == GroupSum(keys, vals, ks[i])
  {
    seq(|ks|, i requires 0 <= i < |ks| => GroupSum(keys, vals, ks[i]))
  }

  /** The column that holds `v` at the one position where `ks` holds `x`. */
  function Indicator<K(==)>(ks: seq<K>, x: K, v: real): (s: seq<real>)
    ensures |s| == |ks|
    ensures forall i :: 0 <= i < |ks| ==> s[i] == (if ks[i] == x then v else 0.0)
  {
    seq(|ks|, i requires 0 <= i < |ks| => if ks[i] == x then v else 0.0)
  }

  /** A key listed exactly once contributes its value exactly once. */
  lemma {:induction false} IndicatorSum<K>(ks: seq<K>, x: K, v: real)
    requires Distinct(ks)
    ensures x in ks ==> Sum(Indicator(ks, x, v)) == v
    ensures x !in ks ==> Sum(Indicator(ks, x, v)) == 0.0
    decreases |ks|
  {
    if |ks| > 0 {
      var init := ks[..|ks| - 1];
      assert Indicator(ks, x, v)[..|ks| - 1] == Indicator(init, x, v);
      IndicatorSum(init, x, v);
      if ks[|ks| - 1] == x {
        assert x !in init by {
          forall j | 0 <= j < |init|
            ensures init[j] != x
          {
            assert ks[j] != ks[|ks| - 1];
          }
        }
      } else {
        assert x in ks ==> x in init by {
          if x in ks {
            var j :| 0 <= j < |ks| && ks[j] == x;
            assert j < |ks| - 1 && init[j] == x;
          }
        }
      }
    }
  }

  /** A group no row belongs to sums to zero. */
  lemma {:induction false} EmptyGroupSum<K>(keys: seq<K>, vals: seq<real>, k: K)
    requires |keys| == |vals|
    requires k !in keys
    ensures GroupSum(keys, vals, k) == 0.0
    decreases |keys|
  {
    if |keys| > 0 {
      EmptyGroupSum(keys[..|keys| - 1], vals[..|vals| - 1], k);
    }
  }

  /**
   Grouping preserves the total: when every key occurs among the distinct
   keys `ks`, the group sums over `ks` add up to the sum of all values.
   */
  lemma {:induction false} GroupPartition<K>(keys: seq<K>, vals: seq<real>, ks: seq<K>)
    requires |keys| == |vals|
    requires Distinct(ks)
    requires forall i :: 0 <= i < |keys| ==> keys[i] in ks
    ensures Sum(GroupSums(keys, vals, ks)) == Sum(vals)
    decreases |keys|
  {
    if |keys| > 0 {
      var n := |keys| - 1;
      var keys', vals' := keys[..n], vals[..n];
      GroupPartition(keys', vals', ks);
      var before := GroupSums(keys', vals', ks);
      var ind := Indicator(ks, keys[n], vals[n]);
      var after := GroupSums(keys, vals, ks);
      forall j | 0 <= j < |ks|
        ensures after[j] == before[j] + ind[j]
      {
        assert after[j] == GroupSum(keys, vals, ks[j]);
      }
      SumAdd(before, ind, after);
      assert keys[n] in ks;
      IndicatorSum(ks, keys[n], vals[n]);
      assert Sum(vals) == Sum(vals') + vals[n];
    } else {
      // with no rows every group is empty, and a column of zeros sums to zero
      var zeros := GroupSums(keys, vals, ks);
      SumScale(zeros, zeros, 0.0);
    }
  }
}
