/** Small vocabulary shared by the other modules. */
module Common {
  datatype Option<+T> = None | Some(value: T)

  function Last<T>(s: seq<T>): T
    requires s != []
  {
    s[|s| - 1]
  }

  function Front<T>(s: seq<T>): seq<T>
    requires s != []
  {
    s[..|s| - 1]
  }

  /** The last `n` elements of `s`, or all of `s` when it is shorter. */
  function Suffix<T>(n: nat, s: seq<T>): seq<T>
  {
    if |s| <= n then s else s[|s| - n..]
  }

  ghost predicate Distinct<T>(s: seq<T>)
  {
    forall i, j :: 0 <= i < j < |s| ==> s[i] != s[j]
  }

  lemma DistinctTail<T>(s: seq<T>)
    requires Distinct(s) && s != []
    ensures Distinct(s[1..]) && s[0] !in s[1..]
  {
  }

  ghost predicate Increasing(s: seq<int>)
  {
    forall i, j :: 0 <= i < j < |s| ==> s[i] < s[j]
  }

  function Members<T>(s: seq<T>): set<T>
  {
    set x | x in s
  }

  /** A distinct sequence has as many members as it is long. */
  lemma {:induction false} DistinctSize<T>(s: seq<T>)
    requires Distinct(s)
    ensures |Members(s)| == |s|
  {
    if s != [] {
      var front := Front(s);
      DistinctSize(front);
      assert Members(s) == Members(front) + {Last(s)};
      assert Last(s) !in front;
    }
  }

  /** A subset is no larger than the set it lies in. */
  lemma {:induction false} SubsetSize<T>(a: set<T>, b: set<T>)
    requires a <= b
    ensures |a| <= |b|
    decreases a
  {
    if a != {} {
      var x :| x in a;
      SubsetSize(a - {x}, b - {x});
    }
  }

  /** Multiples keep the order. */
  lemma {:induction false} Multiples(a: nat, b: nat, m: nat)
    ensures a <= b ==> a * m <= b * m
    decreases b
  {
    if a < b {
      Multiples(a, b - 1, m);
      assert b * m == (b - 1) * m + m;
    }
  }
}
