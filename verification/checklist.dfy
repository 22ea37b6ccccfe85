/** The set of ticked row indices both plan cards keep (exercises, meals). */
module Checklist {

  /** Ticks an unticked row, unticks a ticked one. */
  function Toggle(s: set<int>, i: int): (r: set<int>)
    ensures i in r <==> i !in s
    ensures forall j :: j != i ==> (j in r <==> j in s)
  {
    if i in s then s - {i} else s + {i}
  }

  lemma ToggleTwice(s: set<int>, i: int)
    ensures Toggle(Toggle(s, i), i) == s
  {
  }

  /** Every ticked index names one of `n` rows. */
  predicate Within(s: set<int>, n: int)
  {
    forall j :: j in s ==> 0 <= j < n
  }

  /** The indices of `n` rows. */
  function Rows(n: nat): (r: set<int>)
    ensures forall j :: j in r <==> 0 <= j < n
  {
    if n == 0 then {} else Rows(n - 1) + {n - 1}
  }

  lemma {:induction false} RowsSize(n: nat)
    ensures |Rows(n)| == n
  {
    if n > 0 {
      RowsSize(n - 1);
    }
  }

  /** For ticks within `n` rows, "as many ticks as rows" means "every row ticked". */
  lemma FullIffAllTicked(s: set<int>, n: nat)
    requires Within(s, n)
    ensures |s| == n <==> forall j :: 0 <= j < n ==> j in s
  {
    RowsSize(n);
    assert s <= Rows(n);
    if forall j :: 0 <= j < n ==> j in s {
      assert s == Rows(n);
    }
    if |s| == n && exists j :: 0 <= j < n && j !in s {
      var j :| 0 <= j < n && j !in s;
      assert s <= Rows(n) - {j};
      assert |Rows(n) - {j}| == n - 1;
      SubsetSize(s, Rows(n) - {j});
      assert false;
    }
  }

  lemma SubsetSize(a: set<int>, b: set<int>)
    requires a <= b
    ensures |a| <= |b|
  {
    assert b == a + (b - a);
  }
}
