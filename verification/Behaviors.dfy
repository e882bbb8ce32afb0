/**
 Finite behaviours of a state machine given by an initial predicate and a step relation,
 and the induction principle every whole-run theorem of this project goes through.
 */
module Behaviors {

  /** `run` starts in an initial state and takes one step between neighbours. */
  ghost predicate IsBehavior<S(!new)>(init: S -> bool, next: (S, S) -> bool, run: seq<S>) {
    && |run| > 0
    && init(run[0])
    && forall i, j :: 0 <= i && j == i + 1 && j < |run| ==> next(run[i], run[j])
  }

  /** `inv` holds initially and every step keeps it. */
  ghost predicate IsInductive<S(!new)>(init: S -> bool, next: (S, S) -> bool, inv: S -> bool) {
    && (forall s :: init(s) ==> inv(s))
    && (forall s, s' :: inv(s) && next(s, s') ==> inv(s'))
  }

  lemma {:induction false} InvariantHolds<S(!new)>(
    init: S -> bool, next: (S, S) -> bool, inv: S -> bool, run: seq<S>, i: nat)
    requires IsBehavior(init, next, run) && IsInductive(init, next, inv)
    requires i < |run|
    ensures inv(run[i])
  {
    if i > 0 {
      InvariantHolds(init, next, inv, run, i - 1);
      assert next(run[i - 1], run[i]);
    }
  }

  /** `path` takes one step between neighbours. */
  ghost predicate IsPath<S(!new)>(next: (S, S) -> bool, path: seq<S>) {
    |path| > 0 && forall i, j :: 0 <= i && j == i + 1 && j < |path| ==> next(path[i], path[j])
  }

  lemma Continue<S(!new)>(init: S -> bool, next: (S, S) -> bool, run: seq<S>, s: S)
    requires IsBehavior(init, next, run) && next(run[|run| - 1], s)
    ensures IsBehavior(init, next, run + [s])
  {
  }

  /** One step in front of a path. */
  lemma Precede<S(!new)>(next: (S, S) -> bool, s: S, path: seq<S>)
    requires IsPath(next, path) && next(s, path[0])
    ensures IsPath(next, [s] + path)
  {
    var p := [s] + path;
    forall i, j | 0 <= i && j == i + 1 && j < |p| ensures next(p[i], p[j]) {
      if i > 0 {
        assert p[i] == path[i - 1] && p[j] == path[j - 1];
      }
    }
  }

  lemma JoinPaths<S(!new)>(next: (S, S) -> bool, first: seq<S>, path: seq<S>)
    requires IsPath(next, first) && IsPath(next, path) && path[0] == first[|first| - 1]
    ensures IsPath(next, first + path[1..])
    ensures (first + path[1..])[|first + path[1..]| - 1] == path[|path| - 1]
  {
    Join((s: S) => true, next, first, path);
  }

  /** A run goes on along a path that starts where it ends. */
  lemma Join<S(!new)>(init: S -> bool, next: (S, S) -> bool, run: seq<S>, path: seq<S>)
    requires IsBehavior(init, next, run) && IsPath(next, path) && path[0] == run[|run| - 1]
    ensures IsBehavior(init, next, run + path[1..])
    ensures (run + path[1..])[|run + path[1..]| - 1] == path[|path| - 1]
  {
    var all := run + path[1..];
    forall i, j | 0 <= i && j == i + 1 && j < |all| ensures next(all[i], all[j]) {
      if i >= |run| - 1 {
        var k := i - (|run| - 1);
        assert all[i] == path[k] && all[j] == path[k + 1];
      }
    }
  }

  /** Some path leads from `s` to `s'`. */
  ghost predicate Leads<S(!new)>(next: (S, S) -> bool, s: S, s': S) {
    exists path: seq<S> :: IsPath(next, path) && path[0] == s && path[|path| - 1] == s'
  }

  lemma LeadsNowhere<S(!new)>(next: (S, S) -> bool, s: S)
    ensures Leads(next, s, s)
  {
    assert IsPath(next, [s]) && [s][0] == s;
  }

  lemma LeadsOn<S(!new)>(next: (S, S) -> bool, s: S, m: S, s': S)
    requires Leads(next, s, m) && Leads(next, m, s')
    ensures Leads(next, s, s')
  {
    var a: seq<S> :| IsPath(next, a) && a[0] == s && a[|a| - 1] == m;
    var b: seq<S> :| IsPath(next, b) && b[0] == m && b[|b| - 1] == s';
    JoinPaths(next, a, b);
    assert (a + b[1..])[0] == s;
  }

  lemma LeadsStep<S(!new)>(next: (S, S) -> bool, s: S, s': S)
    requires next(s, s')
    ensures Leads(next, s, s')
  {
    var path := [s, s'];
    assert IsPath(next, path) && path[0] == s && path[|path| - 1] == s';
  }

  /** What every step keeps, every path keeps. */
  lemma LeadsKeeps<S(!new)>(next: (S, S) -> bool, inv: S -> bool, s: S, s': S)
    requires Leads(next, s, s') && inv(s)
    requires forall a, b :: inv(a) && next(a, b) ==> inv(b)
    ensures inv(s')
  {
    var path: seq<S> :| IsPath(next, path) && path[0] == s && path[|path| - 1] == s';
    PathKeeps(next, inv, path, |path| - 1);
  }

  lemma {:induction false} PathKeeps<S(!new)>(next: (S, S) -> bool, inv: S -> bool, path: seq<S>, i: nat)
    requires IsPath(next, path) && inv(path[0]) && i < |path|
    requires forall a, b :: inv(a) && next(a, b) ==> inv(b)
    ensures inv(path[i])
  {
    if i > 0 {
      PathKeeps(next, inv, path, i - 1);
      assert next(path[i - 1], path[i]);
    }
  }

  /** No step up to position i is a slip. */
  ghost predicate Never<S(!new)>(slip: (S, S) -> bool, run: seq<S>, i: nat)
    requires i < |run|
  {
    forall j, k :: 0 <= j && k == j + 1 && k <= i ==> !slip(run[j], run[k])
  }

  /** Good until the first slip, and bad for ever after it. */
  lemma {:induction false} GoodUntilSlip<S(!new)>(init: S -> bool, next: (S, S) -> bool, slip: (S, S) -> bool,
                                                  good: S -> bool, bad: S -> bool, run: seq<S>, i: nat)
    requires IsBehavior(init, next, run) && i < |run|
    requires forall s :: init(s) ==> good(s)
    requires forall s, s' :: good(s) && next(s, s') ==> if slip(s, s') then bad(s') else good(s')
    requires forall s, s' :: bad(s) && next(s, s') ==> bad(s')
    ensures if Never(slip, run, i) then good(run[i]) else bad(run[i])
  {
    if i > 0 {
      GoodUntilSlip(init, next, slip, good, bad, run, i - 1);
      assert next(run[i - 1], run[i]);
      assert Never(slip, run, i) <==> Never(slip, run, i - 1) && !slip(run[i - 1], run[i]);
    }
  }
}
