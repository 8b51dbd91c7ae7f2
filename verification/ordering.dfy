/** Sequences kept in a fixed rank order, as the rule lists of the decision engine are. */
module Ordering {

  /** Every element of `s` has a strictly smaller rank than every later element. */
  predicate StrictlyIncreasing<T>(s: seq<T>, rank: T -> int) {
    forall i, j :: 0 <= i < j < |s| ==> rank(s[i]) < rank(s[j])
  }

  lemma HeadIsMember<T>(t: seq<T>)
    requires |t| > 0
    ensures t[0] in t
  {
  }

  /** A strictly rank-ordered sequence is determined by the set of its elements. */
  lemma {:induction false} SameMembersSameSequence<T>(s: seq<T>, t: seq<T>, rank: T -> int)
    requires StrictlyIncreasing(s, rank) && StrictlyIncreasing(t, rank)
    requires forall x :: x in s <==> x in t
    ensures s == t
    decreases |s|
  {
    if |s| == 0 {
      if t != [] {
        HeadIsMember(t);
        assert false;
      }
    } else {
      assert s[0] in t;
      assert t != [];
      assert t[0] in s;
      var i :| 0 <= i < |s| && s[i] == t[0];
      var j :| 0 <= j < |t| && t[j] == s[0];
      assert rank(s[0]) <= rank(s[i]);
      assert rank(t[0]) <= rank(t[j]);
      assert i == 0;
      forall x
        ensures x in s[1..] <==> x in t[1..]
      {
        if x in s[1..] {
          var k :| 1 <= k < |s| && s[k] == x;
          assert rank(s[0]) < rank(s[k]);
          assert x in t;
          assert x != t[0];
        }
        if x in t[1..] {
          var k :| 1 <= k < |t| && t[k] == x;
          assert rank(t[0]) < rank(t[k]);
          assert x in s;
          assert x != s[0];
        }
      }
      SameMembersSameSequence(s[1..], t[1..], rank);
      assert s == [s[0]] + s[1..];
      assert t == [t[0]] + t[1..];
    }
  }
}
