/** `associate_workers_with_ns`: two cursors walk the lists of workers and namespaces
    and wrap around until the longer list is used up. */
module PerfAssign {
  import opened Arith

  datatype Pair = Pair(worker: nat, ns: nat)

  /** The positions of the two cursors after `i` steps. */
  function At(workers: nat, namespaces: nat, i: nat): Pair
    requires workers > 0 && namespaces > 0
  {
    Pair(Mod(i, workers), Mod(i, namespaces))
  }

  /** How often a cursor has gone around. */
  function Laps(i: nat, d: nat): nat
    requires d > 0
  {
    i / d
  }

  lemma ModNext(i: nat, d: nat)
    requires d > 0
    ensures Mod(i + 1, d) == if Mod(i, d) + 1 == d then 0 else Mod(i, d) + 1
    ensures Laps(i + 1, d) == Laps(i, d) + if Mod(i, d) + 1 == d then 1 else 0
  {
    var q, r := i / d, i % d;
    if r + 1 == d {
      assert i + 1 == (q + 1) * d by { assert (q + 1) * d == q * d + d; }
      MultipleMod(q + 1, d);
    } else {
      DivUnique(i + 1, d, q, r + 1);
    }
  }

  // --------------------------------------------------------- loads of a sequence

  /** How many of the pairs are for worker `w`, and for namespace `e`. */
  function WorkerLoad(pairs: seq<Pair>, w: nat): nat {
    if pairs == [] then 0
    else WorkerLoad(pairs[..|pairs| - 1], w) + if pairs[|pairs| - 1].worker == w then 1 else 0
  }

  function NsLoad(pairs: seq<Pair>, e: nat): nat {
    if pairs == [] then 0
    else NsLoad(pairs[..|pairs| - 1], e) + if pairs[|pairs| - 1].ns == e then 1 else 0
  }

  /** Every pair names a worker and a namespace, no two pairs are equal, everybody is in
      at least one, and the loads of two workers, and those of two namespaces, differ by
      at most one. */
  ghost predicate Balanced(pairs: seq<Pair>, workers: nat, namespaces: nat) {
    && (forall i :: 0 <= i < |pairs| ==> pairs[i].worker < workers && pairs[i].ns < namespaces)
    && (forall i, j :: 0 <= i < j < |pairs| ==> pairs[i] != pairs[j])
    && (forall w, v :: 0 <= w < workers && 0 <= v < workers ==>
          1 <= WorkerLoad(pairs, w) <= WorkerLoad(pairs, v) + 1)
    && (forall e, f :: 0 <= e < namespaces && 0 <= f < namespaces ==> 1 <= NsLoad(pairs, e) <= NsLoad(pairs, f) + 1)
  }

  /** The pairs of the first `n` steps. */
  function Walk(workers: nat, namespaces: nat, n: nat): (pairs: seq<Pair>)
    requires workers > 0 && namespaces > 0
    ensures |pairs| == n
  {
    seq(n, i requires 0 <= i => At(workers, namespaces, i))
  }

  lemma {:induction false} LoadsAre(workers: nat, namespaces: nat, n: nat, w: nat, e: nat)
    requires w < workers && e < namespaces
    ensures WorkerLoad(Walk(workers, namespaces, n), w) == Laps(n, workers) + if w < Mod(n, workers) then 1 else 0
    ensures NsLoad(Walk(workers, namespaces, n), e) == Laps(n, namespaces) + if e < Mod(n, namespaces) then 1 else 0
  {
    hide Mod, Laps;
    if n == 0 {
      NoLaps(0, workers);
      NoLaps(0, namespaces);
    } else {
      LoadsAre(workers, namespaces, n - 1, w, e);
      ModNext(n - 1, workers);
      ModNext(n - 1, namespaces);
      assert Walk(workers, namespaces, n)[..n - 1] == Walk(workers, namespaces, n - 1);
    }
  }

  lemma NoLaps(n: nat, d: nat)
    requires n < d
    ensures Laps(n, d) == 0 && Mod(n, d) == n
  {
    DivUnique(n, d, 0, n);
  }

  lemma SomeLap(n: nat, d: nat)
    requires 0 < d <= n
    ensures Laps(n, d) >= 1
  {
  }

  lemma WalkIsDistinct(workers: nat, namespaces: nat, i: nat, j: nat)
    requires workers > 0 && namespaces > 0 && i < j < Max(workers, namespaces)
    ensures At(workers, namespaces, i) != At(workers, namespaces, j)
  {
    hide Mod;
    ModSmall(i, Max(workers, namespaces));
    ModSmall(j, Max(workers, namespaces));
  }

  /** The walk is balanced for any number of workers and namespaces. */
  lemma AssignmentIsBalanced(workers: nat, namespaces: nat)
    requires workers > 0 && namespaces > 0
    ensures Balanced(Walk(workers, namespaces, Max(workers, namespaces)), workers, namespaces)
  {
    hide Mod, Laps, WorkerLoad, NsLoad;
    var n := Max(workers, namespaces);
    var pairs := Walk(workers, namespaces, n);
    SomeLap(n, workers);
    SomeLap(n, namespaces);
    forall i, j | 0 <= i < j < n ensures pairs[i] != pairs[j] { WalkIsDistinct(workers, namespaces, i, j); }
    forall w, v | 0 <= w < workers && 0 <= v < workers ensures 1 <= WorkerLoad(pairs, w) <= WorkerLoad(pairs, v) + 1 {
      LoadsAre(workers, namespaces, n, w, 0);
      LoadsAre(workers, namespaces, n, v, 0);
    }
    forall e, f | 0 <= e < namespaces && 0 <= f < namespaces ensures 1 <= NsLoad(pairs, e) <= NsLoad(pairs, f) + 1 {
      LoadsAre(workers, namespaces, n, 0, e);
      LoadsAre(workers, namespaces, n, 0, f);
    }
  }

  /** The loop. Without a namespace it ends at once; otherwise both lists are walked in
      order and the assignment is balanced. */
  method Associate(workers: nat, namespaces: nat) returns (pairs: seq<Pair>)
    requires workers > 0
    ensures namespaces == 0 ==> pairs == []
    ensures namespaces > 0 ==> |pairs| == Max(workers, namespaces) && Balanced(pairs, workers, namespaces)
    ensures namespaces > 0 ==> forall i :: 0 <= i < |pairs| ==>
              && (i < workers ==> pairs[i].worker == i) && (i < namespaces ==> pairs[i].ns == i)
              && (i >= workers ==> pairs[i].worker == pairs[i - workers].worker)
              && (i >= namespaces ==> pairs[i].ns == pairs[i - namespaces].ns)
  {
    hide Mod, Balanced;
    pairs := [];
    if namespaces == 0 { return; }
    var worker, entry := 0, 0;
    ModSmall(0, workers);
    ModSmall(0, namespaces);
    for i := 0 to Max(workers, namespaces)
      invariant |pairs| == i && Pair(worker, entry) == At(workers, namespaces, i)
      invariant forall k :: 0 <= k < i ==> pairs[k] == At(workers, namespaces, k)
    {
      pairs := pairs + [Pair(worker, entry)];
      ModNext(i, workers);
      ModNext(i, namespaces);
      worker := if worker + 1 == workers then 0 else worker + 1;
      entry := if entry + 1 == namespaces then 0 else entry + 1;
    }
    AssignmentIsBalanced(workers, namespaces);
    assert pairs == Walk(workers, namespaces, Max(workers, namespaces));
    forall i | 0 <= i < |pairs|
      ensures (i < workers ==> pairs[i].worker == i) && (i < namespaces ==> pairs[i].ns == i)
      ensures i >= workers ==> pairs[i].worker == pairs[i - workers].worker
      ensures i >= namespaces ==> pairs[i].ns == pairs[i - namespaces].ns
    {
      if i < workers { ModSmall(i, workers); } else { ModLap(i - workers, workers); }
      if i < namespaces { ModSmall(i, namespaces); } else { ModLap(i - namespaces, namespaces); }
    }
  }
}
