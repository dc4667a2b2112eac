/** Runs of a transition system: the states from a start, each related to the one before. */
module Runs {

  ghost predicate IsPath<S(!new)>(start: S, next: (S, S) -> bool, path: seq<S>) {
    && |path| > 0 && path[0] == start
    && forall i :: 0 <= i < |path| - 1 ==> next(path[i], path[i + 1])
  }

  ghost predicate Reachable<S(!new)>(start: S, next: (S, S) -> bool, s: S) {
    exists path :: IsPath(start, next, path) && path[|path| - 1] == s
  }

  /** What holds in one state of a run and is kept by every step holds from that state on. */
  lemma {:induction false} Onward<S(!new)>(start: S, next: (S, S) -> bool, inv: S -> bool, path: seq<S>, i: nat, j: nat)
    requires IsPath(start, next, path) && i <= j < |path| && inv(path[i])
    requires forall s, s' :: inv(s) && next(s, s') ==> inv(s')
    ensures inv(path[j])
  {
    if i < j {
      Onward(start, next, inv, path, i, j - 1);
      assert next(path[j - 1], path[j - 1 + 1]);
    }
  }

  lemma Begin<S(!new)>(start: S, next: (S, S) -> bool)
    ensures Reachable(start, next, start)
  {
    assert IsPath(start, next, [start]);
  }

  lemma Extend<S(!new)>(start: S, next: (S, S) -> bool, s: S, s': S)
    requires Reachable(start, next, s) && next(s, s')
    ensures Reachable(start, next, s')
  {
    var path :| IsPath(start, next, path) && path[|path| - 1] == s;
    assert IsPath(start, next, path + [s']);
  }
}
