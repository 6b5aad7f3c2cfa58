/** Which segments keep their names, and in what order they lose them. */
module Retention {
  /** Segments are unlinked oldest first: of the first `n`, one is under its name whenever an older one is. */
  ghost predicate OldestFirst<T>(names: map<nat, T>, n: nat) {
    forall k :: k in names && k + 1 < n ==> k + 1 in names
  }

  /** With names taken away oldest first, every segment from a named one on is named. */
  lemma {:induction false} NamedFrom<T>(names: map<nat, T>, n: nat, q: nat, k: nat)
    requires OldestFirst(names, n) && q in names && q <= k < n
    ensures k in names
    decreases k - q
  {
    if q < k {
      NamedFrom(names, n, q, k - 1);
      assert k - 1 in names;
    }
  }

  /** Taking away one name keeps the order if and only if the one before it is gone. */
  lemma TakingExact<T>(names: map<nat, T>, n: nat, k: nat)
    requires OldestFirst(names, n) && k < n
    ensures OldestFirst(names - {k}, n) <==> k == 0 || k - 1 !in names
  {
    if k > 0 && k - 1 in names {
      assert k - 1 in names - {k} && k !in names - {k};
    }
    if k == 0 || k - 1 !in names {
      forall j | j in names - {k} && j + 1 < n
        ensures j + 1 in names - {k}
      {
        assert j in names;
      }
    }
  }

  /** The names left once segment `sequence` is the newest and `keep` of them are kept, 0 meaning all. */
  function Pruned<T>(names: map<nat, T>, sequence: nat, keep: nat): map<nat, T> {
    if keep > 0 && sequence >= keep then names - {sequence - keep} else names
  }

  /**
   * Just the last `keep` of the first `n` segments have their names: what one setting leaves when no roll is
   * cut short.
   */
  ghost predicate Retained<T>(names: map<nat, T>, n: nat, keep: nat) {
    forall k :: 0 <= k < n ==> (k in names <==> keep == 0 || n <= k + keep)
  }

  lemma RetainedInOrder<T>(names: map<nat, T>, n: nat, keep: nat)
    requires Retained(names, n, keep)
    ensures OldestFirst(names, n)
  {
    forall k | k in names && k + 1 < n
      ensures k + 1 in names
    {
      assert k in names && 0 <= k < n;
    }
  }

  /** One roll's retention, under the setting kept so far, leaves just the last `keep` again. */
  lemma RetainedStays<T>(names: map<nat, T>, n: nat, keep: nat, i: T)
    requires Retained(names, n, keep)
    ensures Retained(Pruned(names[n := i], n, keep), n + 1, keep)
  {
  }

  /** What is installed under the next name does not matter. */
  lemma RetainedBelow<T>(names: map<nat, T>, n: nat, keep: nat, i: T)
    ensures Retained(names[n := i], n, keep) <==> Retained(names, n, keep)
  {
    assert forall k :: 0 <= k < n ==> (k in names[n := i] <==> k in names);
  }

  /** Retention after one roll keeps the order if and only if nothing older than the segment it drops is still there. */
  lemma PruneExact<T>(names: map<nat, T>, n: nat, keep: nat, i: T)
    requires OldestFirst(names, n) && n > 0 && n - 1 in names
    ensures OldestFirst(Pruned(names[n := i], n, keep), n + 1) <==> Spent(names, n, keep)
  {
    var rolled := names[n := i];
    forall k | k in rolled && k + 1 < n + 1
      ensures k + 1 in rolled
    {
      assert k in names;
    }
    if 0 < keep <= n {
      TakingExact(rolled, n + 1, n - keep);
    }
  }

  /** Nothing older is left than the segment that retention drops once segment `n` is the newest. */
  predicate Spent<T>(names: map<nat, T>, n: nat, keep: nat) {
    keep == 0 || n <= keep || n - keep - 1 !in names
  }

  // ---------- over any number of rolls ----------

  /** The names after rolls to the given files, the first of them segment `n`, each followed by its retention. */
  function AfterRolls<T>(names: map<nat, T>, n: nat, keep: nat, files: seq<T>): map<nat, T>
    decreases |files|
  {
    if files == [] then names
    else AfterRolls(Pruned(names[n := files[0]], n, keep), n + 1, keep, files[1..])
  }

  /**
   * Under one setting and undisturbed, any number of rolls leaves just the last `keep` segments, and so keeps
   * the order.
   */
  lemma {:induction false} RetainedThroughout<T>(names: map<nat, T>, n: nat, keep: nat, files: seq<T>)
    requires Retained(names, n, keep)
    ensures Retained(AfterRolls(names, n, keep, files), n + |files|, keep)
    ensures OldestFirst(AfterRolls(names, n, keep, files), n + |files|)
    decreases |files|
  {
    if files == [] {
      RetainedInOrder(names, n, keep);
    } else {
      RetainedStays(names, n, keep, files[0]);
      RetainedThroughout(Pruned(names[n := files[0]], n, keep), n + 1, keep, files[1..]);
    }
  }

  /** The order is kept after each of the rolls. */
  ghost predicate InOrder<T>(names: map<nat, T>, n: nat, keep: nat, files: seq<T>)
    decreases |files|
  {
    && OldestFirst(names, n)
    && (files != [] ==> InOrder(Pruned(names[n := files[0]], n, keep), n + 1, keep, files[1..]))
  }

  /** However many rolls follow, they keep the order if and only if the first of them has nothing older left to drop. */
  lemma {:induction false} RollsExact<T>(names: map<nat, T>, n: nat, keep: nat, files: seq<T>)
    requires OldestFirst(names, n) && n > 0 && n - 1 in names && files != []
    ensures InOrder(names, n, keep, files) <==> Spent(names, n, keep)
    decreases |files|
  {
    var next := Pruned(names[n := files[0]], n, keep);
    PruneExact(names, n, keep, files[0]);
    if files[1..] == [] {
      assert InOrder(next, n + 1, keep, []) <==> OldestFirst(next, n + 1);
    } else if Spent(names, n, keep) {
      assert Spent(next, n + 1, keep);
      RollsExact(next, n + 1, keep, files[1..]);
    }
  }
}
