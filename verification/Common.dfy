/** What several components share. */
module Common {

  datatype Option<T> = None | Some(value: T)

  lemma SubsetSize<T>(a: set<T>, b: set<T>)
    requires a <= b
    ensures |a| <= |b| && (a != b ==> |a| < |b|)
  {
    assert b == a + (b - a);
  }

  ghost function Iterate<T>(step: T -> T, start: T, k: nat): T {
    if k == 0 then start else step(Iterate(step, start, k - 1))
  }

  lemma {:induction false} IterateIs<T>(step: T -> T, start: T, state: nat -> T, n: nat, k: nat)
    requires k <= n && state(0) == start
    requires forall j: nat | j < n :: step(state(j)) == state(j + 1)
    ensures Iterate(step, start, k) == state(k)
    decreases k
  {
    if k > 0 {
      IterateIs(step, start, state, n, k - 1);
      assert step(state(k - 1)) == state(k);
    }
  }

  lemma AddOne<T>(s: set<T>, x: T)
    ensures |s + {x}| == if x in s then |s| else |s| + 1
    ensures x in s ==> |s - {x}| == |s| - 1
  {
    if x in s {
      assert s + {x} == s;
      assert s == s - {x} + {x};
    }
  }
}

/** Compare-and-swap on one stored row, as the clipboard cache and the temporary shares use it. */
module Swapping {

  // How the database answers one statement and the read-back after it: without an acknowledgement the row
  // has changed and the caller does not know.
  datatype Io = Rejected | Unacknowledged | Acknowledged
}
