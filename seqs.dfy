/** Order-preserving sequence helpers shared by the ledger and the user
    registry: `Array.prototype.filter` and the index behind
    `Array.prototype.find`. */
module Seqs {
  import opened Wrappers

  /** The elements of `s` that satisfy `p`, in their original order. */
  function Filter<T>(p: T -> bool, s: seq<T>): (r: seq<T>)
    ensures |r| <= |s|
    ensures multiset(r) <= multiset(s)
    decreases |s|
  {
    if |s| == 0 then []
    else
      assert s == [s[0]] + s[1..];
      if p(s[0]) then [s[0]] + Filter(p, s[1..]) else Filter(p, s[1..])
  }

  /** What filtering keeps: every kept element passes `p` and comes from `s`,
      and every element of `s` that passes is kept. */
  lemma {:induction false} FilterMembers<T>(p: T -> bool, s: seq<T>)
    ensures forall i :: 0 <= i < |Filter(p, s)| ==> p(Filter(p, s)[i]) && Filter(p, s)[i] in s
    ensures forall i :: 0 <= i < |s| && p(s[i]) ==> s[i] in Filter(p, s)
    decreases |s|
  {
    if |s| > 0 {
      var r, t := Filter(p, s), s[1..];
      FilterMembers(p, t);
      if p(s[0]) {
        assert r == [s[0]] + Filter(p, t);
      } else {
        assert r == Filter(p, t);
      }
      forall i | 0 <= i < |r| ensures p(r[i]) && r[i] in s {
        if p(s[0]) && i == 0 {
        } else {
          var j := if p(s[0]) then i - 1 else i;
          assert r[i] == Filter(p, t)[j];
          assert r[i] in t;
        }
      }
      forall i | 0 <= i < |s| && p(s[i]) ensures s[i] in r {
        if i > 0 {
          assert s[i] == t[i - 1];
        }
      }
    }
  }

  /** Index of the first element satisfying `p`, if any. */
  function FirstIndex<T>(p: T -> bool, s: seq<T>): (r: Option<nat>)
    ensures r.None? <==> forall i :: 0 <= i < |s| ==> !p(s[i])
    ensures r.Some? ==> r.value < |s| && p(s[r.value])
    ensures r.Some? ==> forall i :: 0 <= i < r.value ==> !p(s[i])
    decreases |s|
  {
    if |s| == 0 then None
    else if p(s[0]) then Some(0)
    else match FirstIndex(p, s[1..])
      case None => None
      case Some(k) => Some(k + 1)
  }

  /** Filtering distributes over concatenation: it never reorders. */
  lemma {:induction false} FilterAppend<T>(p: T -> bool, a: seq<T>, b: seq<T>)
    ensures Filter(p, a + b) == Filter(p, a) + Filter(p, b)
    decreases |a|
  {
    if |a| > 0 {
      assert (a + b)[0] == a[0];
      assert (a + b)[1..] == a[1..] + b;
      FilterAppend(p, a[1..], b);
    } else {
      assert a + b == b;
    }
  }

  /** Filtering keeps a sequence whose every element passes. */
  lemma {:induction false} FilterKeepsAll<T>(p: T -> bool, s: seq<T>)
    requires forall i :: 0 <= i < |s| ==> p(s[i])
    ensures Filter(p, s) == s
    decreases |s|
  {
    if |s| > 0 {
      FilterKeepsAll(p, s[1..]);
    }
  }

  lemma {:induction false} FilterDropsOne<T>(p: T -> bool, s: seq<T>, k: nat)
    requires k < |s|
    requires !p(s[k])
    requires forall i :: 0 <= i < |s| && i != k ==> p(s[i])
    ensures Filter(p, s) == s[..k] + s[k + 1..]
    decreases |s|
  {
    var t := s[1..];
    if k == 0 {
      assert Filter(p, t) == t by {
        forall i | 0 <= i < |t| ensures p(t[i]) {
          assert t[i] == s[i + 1];
        }
        FilterKeepsAll(p, t);
      }
      assert Filter(p, s) == Filter(p, t);
      assert s[..0] + s[1..] == t;
    } else {
      assert Filter(p, t) == t[..k - 1] + t[k..] by {
        forall i | 0 <= i < |t| && i != k - 1 ensures p(t[i]) {
          assert t[i] == s[i + 1];
        }
        assert t[k - 1] == s[k];
        FilterDropsOne(p, t, k - 1);
      }
      assert Filter(p, s) == [s[0]] + Filter(p, t);
      assert [s[0]] + (t[..k - 1] + t[k..]) == s[..k] + s[k + 1..];
    }
  }
}
