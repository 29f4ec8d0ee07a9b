/**
 * The follow-up actions queued after a post is published: internal plugs, global plugs
 * expanded by their run count, and the optional repeat of a recurring post. The queue is
 * ordered by delay (stably) and a satisfied global plug prunes its other queued firings.
 */
module PlugQueue {

  /** An internal plug as `internalPlugs` lists it; `payload` stands for its other fields. */
  datatype InternalPlug = InternalPlug(delay: int, integrationId: string, payload: string)

  /** A global plug as `globalPlugs` lists it, with its base delay and run count. */
  datatype GlobalPlug = GlobalPlug(delay: int, plugId: string, totalRuns: int, payload: string)

  /** An entry of the queue; every delay is in milliseconds, relative to when the queue is drained. */
  datatype PlugTask =
    | InternalTask(delay: int, integrationId: string, payload: string)
    | GlobalTask(delay: int, plugId: string, totalRuns: int, payload: string)
    | RepeatTask(delay: int)

  const DayMilliseconds := 24 * 60 * 60 * 1000

  function AsTask(p: InternalPlug): PlugTask
  {
    InternalTask(p.delay, p.integrationId, p.payload)
  }

  function InternalTasks(ps: seq<InternalPlug>): (r: seq<PlugTask>)
    ensures |r| == |ps| && forall k :: 0 <= k < |ps| ==> r[k] == AsTask(ps[k])
  {
    if ps == [] then [] else [AsTask(ps[0])] + InternalTasks(ps[1..])
  }

  /** The k-th firing of a global plug: all its fields, with `k` times its delay. */
  function Firing(p: GlobalPlug, k: int): PlugTask
  {
    GlobalTask(p.delay * k, p.plugId, p.totalRuns, p.payload)
  }

  /** The firings `1..n` of a plug, in order. */
  function Firings(p: GlobalPlug, n: nat): (r: seq<PlugTask>)
    ensures |r| == n
    ensures forall k :: 0 <= k < n ==> r[k] == Firing(p, k + 1)
  {
    if n == 0 then [] else Firings(p, n - 1) + [Firing(p, n)]
  }

  /** How often a plug fires: `for (let i = 1; i <= totalRuns; i++)` runs `max(totalRuns, 0)` times. */
  function Runs(p: GlobalPlug): nat
  {
    if p.totalRuns > 0 then p.totalRuns else 0
  }

  /** The expansion of a list of global plugs, plug after plug. */
  function Expansion(ps: seq<GlobalPlug>): seq<PlugTask>
  {
    if ps == [] then [] else Expansion(ps[..|ps| - 1]) + Firings(ps[|ps| - 1], Runs(ps[|ps| - 1]))
  }

  lemma {:induction false} ExpansionConcat(a: seq<GlobalPlug>, b: seq<GlobalPlug>)
    ensures Expansion(a + b) == Expansion(a) + Expansion(b)
    decreases |b|
  {
    if b == [] {
      assert a + b == a;
    } else {
      var b' := b[..|b| - 1];
      var last := b[|b| - 1];
      assert a + b != [];
      assert (a + b)[..|a + b| - 1] == a + b';
      assert (a + b)[|a + b| - 1] == last;
      ExpansionConcat(a, b');
      assert Expansion(a + b) == Expansion(a + b') + Firings(last, Runs(last));
      assert Expansion(b) == Expansion(b') + Firings(last, Runs(last));
    }
  }

  /** A single plug expands into exactly `totalRuns` tasks with delays `d, 2d, ..., nd` sharing its fields. */
  lemma ExpansionOfOnePlug(p: GlobalPlug)
    ensures |Expansion([p])| == Runs(p)
    ensures forall k :: 0 <= k < Runs(p) ==> Expansion([p])[k] == GlobalTask(p.delay * (k + 1), p.plugId, p.totalRuns, p.payload)
  {
    assert [p][..0] == [];
  }

  /** Every task of an expansion is a global plug firing. */
  lemma {:induction false} ExpansionIsGlobal(ps: seq<GlobalPlug>)
    ensures forall t :: t in Expansion(ps) ==> t.GlobalTask?
    decreases |ps|
  {
    if ps != [] {
      ExpansionIsGlobal(ps[..|ps| - 1]);
    }
  }

  /** The `reduce` callback: appends the firings of one plug. */
  method PushFirings(all: seq<PlugTask>, current: GlobalPlug) returns (result: seq<PlugTask>)
    ensures result == all + Firings(current, Runs(current))
  {
    result := all;
    var i := 1;
    while i <= current.totalRuns
      invariant 1 <= i
      invariant i - 1 <= Runs(current)
      invariant result == all + Firings(current, i - 1)
    {
      result := result + [GlobalTask(current.delay * i, current.plugId, current.totalRuns, current.payload)];
      i := i + 1;
    }
  }

  lemma ExpansionStep(plugs: seq<GlobalPlug>, j: nat)
    requires j < |plugs|
    ensures Expansion(plugs[..j + 1]) == Expansion(plugs[..j]) + Firings(plugs[j], Runs(plugs[j]))
  {
    assert plugs[..j + 1][..j] == plugs[..j];
  }

  /** The `reduce` over `globalPlugs` that pushes each plug's firings. */
  method ExpandGlobalPlugs(plugs: seq<GlobalPlug>) returns (tasks: seq<PlugTask>)
    ensures tasks == Expansion(plugs)
  {
    tasks := [];
    var j := 0;
    while j < |plugs|
      invariant 0 <= j <= |plugs|
      invariant tasks == Expansion(plugs[..j])
    {
      tasks := PushFirings(tasks, plugs[j]);
      ExpansionStep(plugs, j);
      j := j + 1;
    }
    assert plugs[..|plugs|] == plugs;
  }

  /** The queue entry that repeats a recurring post, anchored to the time the run started. */
  function RepeatTasks(intervalInDays: int, elapsedMilliseconds: int): seq<PlugTask>
  {
    if intervalInDays == 0 then [] else [RepeatTask(intervalInDays * DayMilliseconds - elapsedMilliseconds)]
  }

  predicate SortedByDelay(s: seq<PlugTask>)
  {
    forall i, j :: 0 <= i < j < |s| ==> s[i].delay <= s[j].delay
  }

  lemma ConsSorted(h: PlugTask, r: seq<PlugTask>)
    requires SortedByDelay(r)
    requires forall k :: 0 <= k < |r| ==> h.delay <= r[k].delay
    ensures SortedByDelay([h] + r)
  {
    var c := [h] + r;
    forall i, j | 0 <= i < j < |c| ensures c[i].delay <= c[j].delay {
      assert c[j] == r[j - 1];
      if i > 0 { assert c[i] == r[i - 1]; }
    }
  }

  /** The tasks of `s` with delay `d`, in their order in `s`. */
  function WithDelay(s: seq<PlugTask>, d: int): seq<PlugTask>
  {
    if s == [] then [] else (if s[0].delay == d then [s[0]] else []) + WithDelay(s[1..], d)
  }

  /** Puts `x` in front of every task whose delay is not smaller. */
  function InsertByDelay(x: PlugTask, s: seq<PlugTask>): seq<PlugTask>
  {
    if s == [] || x.delay <= s[0].delay then [x] + s else [s[0]] + InsertByDelay(x, s[1..])
  }

  /** Lodash's `sortBy(list, 'delay')`: ascending by delay, a permutation of its input. */
  function SortByDelay(s: seq<PlugTask>): (r: seq<PlugTask>)
    ensures SortedByDelay(r)
    ensures multiset(r) == multiset(s)
  {
    if s == [] then []
    else
      var rest := SortByDelay(s[1..]);
      InsertSorted(s[0], rest);
      assert s == [s[0]] + s[1..];
      InsertByDelay(s[0], rest)
  }

  lemma {:induction false} InsertSorted(x: PlugTask, s: seq<PlugTask>)
    requires SortedByDelay(s)
    ensures SortedByDelay(InsertByDelay(x, s))
    ensures multiset(InsertByDelay(x, s)) == multiset(s) + multiset{x}
    decreases |s|
  {
    if s == [] || x.delay <= s[0].delay {
      ConsSorted(x, s);
    } else {
      InsertSorted(x, s[1..]);
      assert s == [s[0]] + s[1..];
      var r := InsertByDelay(x, s[1..]);
      forall k | 0 <= k < |r| ensures s[0].delay <= r[k].delay {
        assert r[k] in multiset(r);
        if r[k] != x {
          assert r[k] in multiset(s[1..]);
          var m :| 0 <= m < |s[1..]| && s[1..][m] == r[k];
          assert s[m + 1] == r[k];
        }
      }
      ConsSorted(s[0], r);
    }
  }

  lemma {:induction false} InsertStable(x: PlugTask, s: seq<PlugTask>, d: int)
    ensures WithDelay(InsertByDelay(x, s), d) == (if x.delay == d then [x] else []) + WithDelay(s, d)
    decreases |s|
  {
    if s == [] || x.delay <= s[0].delay {
      assert InsertByDelay(x, s) == [x] + s;
      assert ([x] + s)[1..] == s;
    } else {
      var r := InsertByDelay(x, s[1..]);
      InsertStable(x, s[1..], d);
      assert InsertByDelay(x, s) == [s[0]] + r;
      assert ([s[0]] + r)[1..] == r;
      var head := if s[0].delay == d then [s[0]] else [];
      var mine := if x.delay == d then [x] else [];
      assert WithDelay([s[0]] + r, d) == head + WithDelay(r, d);
      assert WithDelay(s, d) == head + WithDelay(s[1..], d);
      assert head == [] || mine == [];
      assert head + (mine + WithDelay(s[1..], d)) == mine + (head + WithDelay(s[1..], d));
    }
  }

  /** Sorting keeps the relative order of tasks with equal delays. */
  lemma {:induction false} SortIsStable(s: seq<PlugTask>, d: int)
    ensures WithDelay(SortByDelay(s), d) == WithDelay(s, d)
    decreases |s|
  {
    if s != [] {
      SortIsStable(s[1..], d);
      InsertStable(s[0], SortByDelay(s[1..]), d);
    }
  }

  /** The tasks in the order they are gathered, before sorting. */
  function Gathered(internal: seq<InternalPlug>, global: seq<GlobalPlug>, intervalInDays: int, elapsedMilliseconds: int): seq<PlugTask>
  {
    InternalTasks(internal) + Expansion(global) + RepeatTasks(intervalInDays, elapsedMilliseconds)
  }

  /** The queue handed to the drain loop: the gathered tasks, sorted stably by delay. */
  method BuildPlugQueue(internal: seq<InternalPlug>, global: seq<GlobalPlug>, intervalInDays: int, elapsedMilliseconds: int)
    returns (queue: seq<PlugTask>)
    ensures SortedByDelay(queue)
    ensures multiset(queue) == multiset(Gathered(internal, global, intervalInDays, elapsedMilliseconds))
    ensures forall d :: WithDelay(queue, d) == WithDelay(Gathered(internal, global, intervalInDays, elapsedMilliseconds), d)
    ensures queue == SortByDelay(Gathered(internal, global, intervalInDays, elapsedMilliseconds))
  {
    var globalTasks := ExpandGlobalPlugs(global);
    var repeatPost := RepeatTasks(intervalInDays, elapsedMilliseconds);
    var all := InternalTasks(internal) + globalTasks + repeatPost;
    queue := SortByDelay(all);
    forall d ensures WithDelay(queue, d) == WithDelay(all, d) {
      SortIsStable(all, d);
    }
  }

  /**
   * A queue holding the gathered tasks holds a repeat task exactly when the post recurs,
   * and that task waits one interval less the time the run has taken so far.
   */
  lemma RepeatQueuedIffRecurring(queue: seq<PlugTask>, internal: seq<InternalPlug>, global: seq<GlobalPlug>, intervalInDays: int, elapsedMilliseconds: int)
    requires multiset(queue) == multiset(Gathered(internal, global, intervalInDays, elapsedMilliseconds))
    ensures (exists k :: 0 <= k < |queue| && queue[k].RepeatTask?) <==> intervalInDays != 0
    ensures forall k :: 0 <= k < |queue| && queue[k].RepeatTask? ==> queue[k].delay == intervalInDays * DayMilliseconds - elapsedMilliseconds
  {
    var all := Gathered(internal, global, intervalInDays, elapsedMilliseconds);
    var repeat := RepeatTasks(intervalInDays, elapsedMilliseconds);
    NoRepeatBeforeSorting(internal, global);
    assert all == (InternalTasks(internal) + Expansion(global)) + repeat;
    forall k | 0 <= k < |queue| ensures queue[k] in all {
      assert queue[k] in multiset(queue);
    }
    if intervalInDays != 0 {
      assert all[|all| - 1] == repeat[0];
      assert repeat[0] in multiset(queue);
    }
  }

  /**
   * The gathered tasks hold the repeat task once when the post recurs and not at all
   * otherwise, and no other repeat task.
   */
  lemma RepeatsOfGathered(internal: seq<InternalPlug>, global: seq<GlobalPlug>, intervalInDays: int, elapsedMilliseconds: int)
    ensures forall t :: t in multiset(Gathered(internal, global, intervalInDays, elapsedMilliseconds)) && t.RepeatTask? ==>
      t == RepeatTask(intervalInDays * DayMilliseconds - elapsedMilliseconds)
    ensures multiset(Gathered(internal, global, intervalInDays, elapsedMilliseconds))[RepeatTask(intervalInDays * DayMilliseconds - elapsedMilliseconds)]
      == if intervalInDays != 0 then 1 else 0
  {
    var front := InternalTasks(internal) + Expansion(global);
    var repeat := RepeatTasks(intervalInDays, elapsedMilliseconds);
    var x := RepeatTask(intervalInDays * DayMilliseconds - elapsedMilliseconds);
    NoRepeatBeforeSorting(internal, global);
    assert Gathered(internal, global, intervalInDays, elapsedMilliseconds) == front + repeat;
    assert x !in front;
    assert multiset(front)[x] == 0;
  }

  lemma NoRepeatBeforeSorting(internal: seq<InternalPlug>, global: seq<GlobalPlug>)
    ensures forall t :: t in InternalTasks(internal) + Expansion(global) ==> !t.RepeatTask?
  {
    ExpansionIsGlobal(global);
  }

  /** `t` is a global plug firing of plug `id`: what the drain loop prunes. */
  predicate SamePlug(t: PlugTask, id: string)
  {
    t.GlobalTask? && t.plugId == id
  }

  /** The queue without the firings of plug `id`, the others in their order. */
  function WithoutPlug(s: seq<PlugTask>, id: string): (r: seq<PlugTask>)
    ensures |r| <= |s|
  {
    if s == [] then [] else (if SamePlug(s[0], id) then [] else [s[0]]) + WithoutPlug(s[1..], id)
  }

  lemma {:induction false} WithoutPlugConcat(a: seq<PlugTask>, b: seq<PlugTask>, id: string)
    ensures WithoutPlug(a + b, id) == WithoutPlug(a, id) + WithoutPlug(b, id)
    decreases |a|
  {
    if a == [] {
      assert a + b == b;
    } else {
      assert (a + b)[1..] == a[1..] + b;
      WithoutPlugConcat(a[1..], b, id);
    }
  }

  lemma {:induction false} WithoutPlugKeepsOthers(s: seq<PlugTask>, id: string)
    requires forall k :: 0 <= k < |s| ==> !SamePlug(s[k], id)
    ensures WithoutPlug(s, id) == s
    decreases |s|
  {
    if s != [] {
      WithoutPlugKeepsOthers(s[1..], id);
    }
  }

  /**
   * Pruning removes exactly the firings of plug `id`: each other task keeps its number of
   * occurrences and those of plug `id` disappear.
   */
  lemma {:induction false} WithoutPlugRemovesExactly(s: seq<PlugTask>, id: string)
    ensures forall t :: multiset(WithoutPlug(s, id))[t] == if SamePlug(t, id) then 0 else multiset(s)[t]
    decreases |s|
  {
    if s != [] {
      WithoutPlugRemovesExactly(s[1..], id);
      assert s == [s[0]] + s[1..];
    }
  }

  /** Pruning keeps the queue sorted. */
  lemma {:induction false} WithoutPlugSorted(s: seq<PlugTask>, id: string)
    requires SortedByDelay(s)
    ensures SortedByDelay(WithoutPlug(s, id))
    decreases |s|
  {
    if s != [] {
      WithoutPlugSorted(s[1..], id);
      var r := WithoutPlug(s[1..], id);
      WithoutPlugRemovesExactly(s[1..], id);
      forall k | 0 <= k < |r| ensures s[0].delay <= r[k].delay {
        assert r[k] in multiset(r);
        assert r[k] in multiset(s[1..]);
      }
      if !SamePlug(s[0], id) {
        ConsSorted(s[0], r);
      }
    }
  }

  /**
   * The pruning of the drain loop as written: collect the indices of the firings of plug
   * `plugId` in ascending order, then `splice` them out from the last to the first, so that
   * each removal leaves the indices still to be removed valid.
   */
  method PruneSamePlug(list: seq<PlugTask>, plugId: string) returns (rest: seq<PlugTask>)
    ensures rest == WithoutPlug(list, plugId)
  {
    var toDelete := MatchingIndices(list, plugId);
    rest := list;
    var n := |toDelete|;
    WithoutPlugOfEmpty(list, plugId);
    while n > 0
      invariant 0 <= n <= |toDelete|
      invariant rest == list[..Bound(toDelete, n, |list|)] + WithoutPlug(list[Bound(toDelete, n, |list|)..], plugId)
    {
      n := n - 1;
      var index := toDelete[n];
      var upper := Bound(toDelete, n + 1, |list|);
      NoneBetween(list, plugId, toDelete, n);
      SpliceStep(list, plugId, index, upper);
      rest := rest[..index] + rest[index + 1..];
    }
    NoneBetween(list, plugId, toDelete, -1);
    PrefixWithoutPlug(list, plugId, Bound(toDelete, 0, |list|));
  }

  /** The `reduce` that collects, in ascending order, the indices of the firings of `plugId`. */
  method MatchingIndices(list: seq<PlugTask>, plugId: string) returns (toDelete: seq<nat>)
    ensures forall k :: 0 <= k < |toDelete| ==> toDelete[k] < |list| && SamePlug(list[toDelete[k]], plugId)
    ensures forall k, k' :: 0 <= k < k' < |toDelete| ==> toDelete[k] < toDelete[k']
    ensures forall j :: 0 <= j < |list| && SamePlug(list[j], plugId) ==> j in toDelete
  {
    toDelete := [];
    var i := 0;
    while i < |list|
      invariant 0 <= i <= |list|
      invariant forall k :: 0 <= k < |toDelete| ==> toDelete[k] < i && SamePlug(list[toDelete[k]], plugId)
      invariant forall k, k' :: 0 <= k < k' < |toDelete| ==> toDelete[k] < toDelete[k']
      invariant forall j :: 0 <= j < i && SamePlug(list[j], plugId) ==> j in toDelete
    {
      if SamePlug(list[i], plugId) {
        toDelete := toDelete + [i];
      }
      i := i + 1;
    }
  }

  /** The index that bounds the part of the list still untouched after `n` removals remain. */
  function Bound(toDelete: seq<nat>, n: nat, len: nat): nat
    requires n <= |toDelete|
  {
    if n == |toDelete| then len else toDelete[n]
  }

  /** No firing of `id` lies strictly between the `n`-th index to delete and the next one. */
  lemma NoneBetween(list: seq<PlugTask>, id: string, toDelete: seq<nat>, n: int)
    requires -1 <= n < |toDelete|
    requires forall k :: 0 <= k < |toDelete| ==> toDelete[k] < |list|
    requires forall k, k' :: 0 <= k < k' < |toDelete| ==> toDelete[k] < toDelete[k']
    requires forall j :: 0 <= j < |list| && SamePlug(list[j], id) ==> j in toDelete
    ensures forall j :: (if n < 0 then 0 else toDelete[n] + 1) <= j < Bound(toDelete, n + 1, |list|) ==> !SamePlug(list[j], id)
  {
    var lower := if n < 0 then 0 else toDelete[n] + 1;
    var upper := Bound(toDelete, n + 1, |list|);
    forall j | lower <= j < upper ensures j !in toDelete {
      forall m | 0 <= m < |toDelete| ensures toDelete[m] != j {
        if m <= n {
          assert toDelete[m] <= toDelete[n];
        } else if m > n + 1 {
          assert toDelete[n + 1] < toDelete[m];
        }
      }
    }
  }

  lemma WithoutPlugOfEmpty(s: seq<PlugTask>, id: string)
    ensures s == s[..|s|] + WithoutPlug(s[|s|..], id)
  {
    assert s[|s|..] == [];
  }

  lemma PrefixWithoutPlug(s: seq<PlugTask>, id: string, c: nat)
    requires c <= |s|
    requires forall j :: 0 <= j < c ==> !SamePlug(s[j], id)
    ensures s[..c] + WithoutPlug(s[c..], id) == WithoutPlug(s, id)
  {
    assert s == s[..c] + s[c..];
    WithoutPlugConcat(s[..c], s[c..], id);
    WithoutPlugKeepsOthers(s[..c], id);
  }

  /** Removing the firing at `c`, when none lies between it and `upper`. */
  lemma SpliceStep(s: seq<PlugTask>, id: string, c: nat, upper: nat)
    requires c < upper <= |s| && SamePlug(s[c], id)
    requires forall j :: c < j < upper ==> !SamePlug(s[j], id)
    ensures (s[..upper] + WithoutPlug(s[upper..], id))[..c] + (s[..upper] + WithoutPlug(s[upper..], id))[c + 1..]
         == s[..c] + WithoutPlug(s[c..], id)
  {
    var tail := WithoutPlug(s[upper..], id);
    var middle := s[c + 1..upper];
    var whole := s[..upper] + tail;
    assert whole[..c] == s[..c];
    assert whole[c + 1..] == middle + tail;
    assert s[c..][1..] == s[c + 1..];
    assert WithoutPlug(s[c..], id) == WithoutPlug(s[c + 1..], id);
    assert s[c + 1..] == middle + s[upper..];
    WithoutPlugConcat(middle, s[upper..], id);
    WithoutPlugKeepsOthers(middle, id);
  }
}
