/**
 * The drain loop of `postWorkflowV101`: take the head of the plug queue, sleep its delay,
 * process it with up to five attempts, and when a global plug reports that it is satisfied,
 * prune the remaining firings of that plug.
 */
module PlugDrain {
  import opened Wrappers
  import opened PlugQueue
  import opened PostTrace
  import PostPublish

  /** The delays of the processed tasks, in order. */
  function Delays(s: seq<PlugTask>): (r: seq<int>)
    ensures |r| == |s| && forall k :: 0 <= k < |s| ==> r[k] == s[k].delay
  {
    if s == [] then [] else [s[0].delay] + Delays(s[1..])
  }

  function RepeatCount(s: seq<PlugTask>): nat
  {
    if s == [] then 0 else (if s[0].RepeatTask? then 1 else 0) + RepeatCount(s[1..])
  }

  lemma {:induction false} TasksConcat(a: seq<PlugTask>, b: seq<PlugTask>)
    ensures Delays(a + b) == Delays(a) + Delays(b)
    ensures RepeatCount(a + b) == RepeatCount(a) + RepeatCount(b)
    decreases |a|
  {
    if a == [] {
      assert a + b == b;
    } else {
      assert (a + b)[1..] == a[1..] + b;
      TasksConcat(a[1..], b);
    }
  }

  /** When `x` is the only repeat task that can occur, the repeat tasks of `s` are its copies. */
  lemma {:induction false} RepeatCountOfOne(s: seq<PlugTask>, x: PlugTask)
    requires x.RepeatTask?
    requires forall t :: t in s && t.RepeatTask? ==> t == x
    ensures RepeatCount(s) == multiset(s)[x]
    decreases |s|
  {
    if s != [] {
      assert s == [s[0]] + s[1..];
      RepeatCountOfOne(s[1..], x);
    }
  }

  /** An event after which a plug's attempts stop. */
  predicate Final(e: Event)
  {
    || (e.InternalPlugRun? && (e.ack.Ok? || e.ack == Fail(BadBody)))
    || (e.GlobalPlugRun? && (e.verdict.Ok? || e.verdict == Fail(BadBody)))
    || (e.TokenRefreshed? && !Usable(e.accessToken))
  }

  /** No event of `s` stops the attempts. */
  predicate Unfinished(s: seq<Event>)
  {
    s == [] || (!Final(s[0]) && Unfinished(s[1..]))
  }

  /** An event of the attempts at an internal plug: a run, or the integration load and refresh. */
  predicate InternalRunEvent(e: Event, task: PlugTask, postId: string, organizationId: string)
    requires task.InternalTask?
  {
    || (e.InternalPlugRun? && e.task == task && e.postId == postId)
    || e == IntegrationLoaded(organizationId, task.integrationId)
    || e.TokenRefreshed?
  }

  /** An event of the attempts at a global plug: a run, or a refresh of the post's integration. */
  predicate GlobalRunEvent(e: Event, task: PlugTask, postId: string, integrationId: string)
  {
    || (e.GlobalPlugRun? && e.task == task && e.postId == postId)
    || (e.TokenRefreshed? && e.integrationId == integrationId)
  }

  /** The events of the attempts at an internal plug, for the first published post. */
  predicate InternalRunTrace(s: seq<Event>, task: PlugTask, postId: string, organizationId: string)
    requires task.InternalTask?
  {
    s == [] || (InternalRunEvent(s[0], task, postId, organizationId) && InternalRunTrace(s[1..], task, postId, organizationId))
  }

  /** The events of the attempts at a global plug, for the first published post. */
  predicate GlobalRunTrace(s: seq<Event>, task: PlugTask, postId: string, integrationId: string)
  {
    s == [] || (GlobalRunEvent(s[0], task, postId, integrationId) && GlobalRunTrace(s[1..], task, postId, integrationId))
  }

  /** Every child workflow started is `child`. */
  predicate Children(s: seq<Event>, child: ChildRun)
  {
    s == [] || ((s[0].ChildStarted? ==> s[0].child == child) && Children(s[1..], child))
  }

  lemma {:induction false} RunConcat(a: seq<Event>, b: seq<Event>, task: PlugTask, postId: string, organizationId: string, integrationId: string)
    requires task.InternalTask?
    ensures Unfinished(a + b) <==> Unfinished(a) && Unfinished(b)
    ensures InternalRunTrace(a + b, task, postId, organizationId) <==>
      InternalRunTrace(a, task, postId, organizationId) && InternalRunTrace(b, task, postId, organizationId)
    decreases |a|
  {
    if a == [] {
      assert a + b == b;
    } else {
      assert (a + b)[1..] == a[1..] + b;
      RunConcat(a[1..], b, task, postId, organizationId, integrationId);
    }
  }

  lemma {:induction false} GlobalRunConcat(a: seq<Event>, b: seq<Event>, task: PlugTask, postId: string, integrationId: string)
    ensures Unfinished(a + b) <==> Unfinished(a) && Unfinished(b)
    ensures GlobalRunTrace(a + b, task, postId, integrationId) <==>
      GlobalRunTrace(a, task, postId, integrationId) && GlobalRunTrace(b, task, postId, integrationId)
    decreases |a|
  {
    if a == [] {
      assert a + b == b;
    } else {
      assert (a + b)[1..] == a[1..] + b;
      GlobalRunConcat(a[1..], b, task, postId, integrationId);
    }
  }

  lemma {:induction false} ChildrenConcat(a: seq<Event>, b: seq<Event>, child: ChildRun)
    ensures Children(a + b, child) <==> Children(a, child) && Children(b, child)
    decreases |a|
  {
    if a == [] {
      assert a + b == b;
    } else {
      assert (a + b)[1..] == a[1..] + b;
      ChildrenConcat(a[1..], b, child);
    }
  }

  lemma ChildrenOne(e: Event, child: ChildRun)
    ensures Children([e], child) <==> (e.ChildStarted? ==> e.child == child)
  {
    assert [e][1..] == [];
  }

  /** The attempts at a plug belong to the plug phase, neither sleep nor start a child. */
  lemma {:induction false} RunTraceFacts(s: seq<Event>, task: PlugTask, postId: string, organizationId: string, integrationId: string, child: ChildRun)
    requires (task.InternalTask? && InternalRunTrace(s, task, postId, organizationId)) || GlobalRunTrace(s, task, postId, integrationId)
    ensures PlugTrace(s) && Sleeps(s) == [] && ChildCount(s) == 0 && Children(s, child)
    decreases |s|
  {
    if s != [] {
      RunTraceFacts(s[1..], task, postId, organizationId, integrationId, child);
    }
  }

  /** The attempt counts and the stopping events after one more run. */
  lemma RunStep(events: seq<Event>, run: Event)
    requires run.InternalPlugRun? || run.GlobalPlugRun?
    ensures PlugRuns(events + [run]) == PlugRuns(events) + 1
    ensures Unfinished(events + [run]) <==> Unfinished(events) && !Final(run)
    ensures (events + [run])[..|events|] == events
  {
    PlugConcatFacts(events, [run]);
    assert [run][1..] == [];
    RunConcat(events, [run], InternalTask(0, "", ""), "", "", "");
  }

  /**
   * Up to five attempts at an internal plug. A success or a `bad_body` failure ends them;
   * a `refresh_token` failure loads the plug's integration and refreshes its token, and
   * ends them when no access token comes back; any other failure retries.
   */
  method RunInternalPlug(history: seq<Event>, task: PlugTask, organizationId: string, postId: string, env: Env)
    returns (events: seq<Event>)
    requires task.InternalTask?
    ensures InternalRunTrace(events, task, postId, organizationId)
    ensures 1 <= PlugRuns(events) <= PostPublish.Slots
    ensures Unfinished(events[..|events| - 1])
    ensures PlugRuns(events) < PostPublish.Slots ==> Final(events[|events| - 1])
  {
    events := [];
    var slot := 0;
    while slot < PostPublish.Slots
      invariant 0 <= slot <= PostPublish.Slots
      invariant PlugRuns(events) == slot
      invariant InternalRunTrace(events, task, postId, organizationId)
      invariant Unfinished(events)
      invariant slot > 0 ==> |events| > 0
    {
      var ack := env.processInternalPlug(history + events, task, postId);
      var run := InternalPlugRun(task, postId, ack);
      RunStep(events, run);
      RunConcat(events, [run], task, postId, organizationId, "");
      assert [run][1..] == [];
      events := events + [run];
      if ack.Ok? || ack.failure == BadBody {
        return;
      }
      if ack.failure == RefreshNeeded {
        var integration := env.getIntegrationById(history + events, organizationId, task.integrationId);
        var refreshed := env.refreshToken(history + events + [IntegrationLoaded(organizationId, task.integrationId)], integration);
        var loaded := [IntegrationLoaded(organizationId, task.integrationId), TokenRefreshed(integration.id, refreshed)];
        LoadedFacts(events, task, postId, organizationId, integration.id, refreshed);
        events := events + loaded;
        if !Usable(refreshed) {
          return;
        }
      }
      slot := slot + 1;
    }
    UnfinishedPrefix(events);
  }

  /** The summaries after the token refresh of an internal plug. */
  lemma LoadedFacts(events: seq<Event>, task: PlugTask, postId: string, organizationId: string, integrationId: string, refreshed: Option<string>)
    requires task.InternalTask?
    ensures var loaded := [IntegrationLoaded(organizationId, task.integrationId), TokenRefreshed(integrationId, refreshed)];
      && PlugRuns(events + loaded) == PlugRuns(events)
      && (Unfinished(events + loaded) <==> Unfinished(events) && Usable(refreshed))
      && (InternalRunTrace(events + loaded, task, postId, organizationId) <==> InternalRunTrace(events, task, postId, organizationId))
      && (events + loaded)[..|events + loaded| - 1] == events + [loaded[0]]
      && (Unfinished(events + [loaded[0]]) <==> Unfinished(events))
  {
    var loaded := [IntegrationLoaded(organizationId, task.integrationId), TokenRefreshed(integrationId, refreshed)];
    assert loaded[1..] == [loaded[1]] && loaded[1..][1..] == [];
    assert PlugRuns(loaded[1..]) == 0;
    PlugConcatFacts(events, loaded);
    RunConcat(events, loaded, task, postId, organizationId, "");
    RunConcat(events, [loaded[0]], task, postId, organizationId, "");
    assert [loaded[0]][1..] == [];
    assert (events + loaded)[..|events + loaded| - 1] == events + [loaded[0]];
  }

  /** Dropping the last event keeps a trace unfinished. */
  lemma UnfinishedPrefix(s: seq<Event>)
    requires Unfinished(s) && |s| > 0
    ensures Unfinished(s[..|s| - 1])
  {
    assert s == s[..|s| - 1] + [s[|s| - 1]];
    RunConcat(s[..|s| - 1], [s[|s| - 1]], InternalTask(0, "", ""), "", "", "");
  }

  /**
   * Up to five attempts at a global plug, for the first published post. A reply ends them,
   * and `satisfied` is whether the last reply said the plug is satisfied; a `bad_body`
   * failure ends them; a `refresh_token` failure refreshes the post's integration and ends
   * them when no access token comes back; any other failure retries.
   */
  method RunGlobalPlug(history: seq<Event>, task: PlugTask, integration: Integration, postId: string, env: Env)
    returns (events: seq<Event>, satisfied: bool)
    ensures GlobalRunTrace(events, task, postId, integration.id)
    ensures 1 <= PlugRuns(events) <= PostPublish.Slots
    ensures Unfinished(events[..|events| - 1])
    ensures PlugRuns(events) < PostPublish.Slots ==> Final(events[|events| - 1])
    ensures satisfied <==> events[|events| - 1] == GlobalPlugRun(task, postId, Ok(true))
  {
    events := [];
    satisfied := false;
    var slot := 0;
    while slot < PostPublish.Slots
      invariant 0 <= slot <= PostPublish.Slots
      invariant PlugRuns(events) == slot
      invariant GlobalRunTrace(events, task, postId, integration.id)
      invariant Unfinished(events)
      invariant slot > 0 ==> |events| > 0 && events[|events| - 1] != GlobalPlugRun(task, postId, Ok(true))
      invariant !satisfied
    {
      var verdict := env.processPlug(history + events, task, postId);
      var run := GlobalPlugRun(task, postId, verdict);
      GlobalStep(events, run, task, postId, integration.id);
      events := events + [run];
      if verdict.Ok? {
        // a satisfied plug prunes its other firings; either way the attempts end
        satisfied := verdict.value;
        return;
      }
      if verdict.failure == BadBody {
        return;
      }
      if verdict.failure == RefreshNeeded {
        var refreshed := env.refreshToken(history + events, integration);
        var renewal := TokenRefreshed(integration.id, refreshed);
        GlobalStep(events, renewal, task, postId, integration.id);
        events := events + [renewal];
        if !Usable(refreshed) {
          return;
        }
      }
      slot := slot + 1;
    }
    UnfinishedPrefix(events);
  }

  /** One more event of the attempts at a global plug. */
  lemma GlobalStep(events: seq<Event>, e: Event, task: PlugTask, postId: string, integrationId: string)
    requires GlobalRunEvent(e, task, postId, integrationId)
    ensures GlobalRunTrace(events + [e], task, postId, integrationId) <==> GlobalRunTrace(events, task, postId, integrationId)
    ensures Unfinished(events + [e]) <==> Unfinished(events) && !Final(e)
    ensures PlugRuns(events + [e]) == PlugRuns(events) + (if e.GlobalPlugRun? then 1 else 0)
    ensures (events + [e])[..|events|] == events
  {
    PlugConcatFacts(events, [e]);
    GlobalRunConcat(events, [e], task, postId, integrationId);
    assert [e][1..] == [];
  }

  /**
   * Between one and five runs; no event but the last stops them, and they stop short of
   * five only at an event that ends them.
   */
  predicate Attempts(run: seq<Event>)
  {
    && |run| > 0
    && 1 <= PlugRuns(run) <= PostPublish.Slots
    && Unfinished(run[..|run| - 1])
    && (PlugRuns(run) < PostPublish.Slots ==> Final(run[|run| - 1]))
  }

  /**
   * `run` is the processing of `task` that gave the verdict `sat`: the attempts at an
   * internal plug, never satisfied; the attempts at a global plug, satisfied exactly when
   * the last of them replied that the plug is satisfied; the start of the repeat child for
   * the repeat task, never satisfied.
   */
  predicate TaskRun(run: seq<Event>, task: PlugTask, sat: bool, postId: string, organizationId: string, integrationId: string, child: ChildRun)
  {
    if task.InternalTask? then
      !sat && InternalRunTrace(run, task, postId, organizationId) && Attempts(run)
    else if task.GlobalTask? then
      GlobalRunTrace(run, task, postId, integrationId) && Attempts(run) && (sat <==> run[|run| - 1] == GlobalPlugRun(task, postId, Ok(true)))
    else
      !sat && run == [ChildStarted(child)]
  }

  /** The events of a drain that processed `done` with the runs `runs`: each task's sleep, then its run. */
  function Segments(done: seq<PlugTask>, runs: seq<seq<Event>>): seq<Event>
    requires |runs| == |done|
    decreases |done|
  {
    if done == [] then [] else Segments(done[..|done| - 1], runs[..|runs| - 1]) + ([Slept(done[|done| - 1].delay)] + runs[|runs| - 1])
  }

  /** The tasks left after the first one is processed with verdict `sat`: a satisfied global plug also drops its other firings. */
  function Next(list: seq<PlugTask>, sat: bool): seq<PlugTask>
    requires list != []
  {
    if sat && list[0].GlobalTask? then WithoutPlug(list[1..], list[0].plugId) else list[1..]
  }

  /** The tasks the drain takes from `list`, in order, when the tasks it takes give the verdicts `verdicts`. */
  function Taken(list: seq<PlugTask>, verdicts: seq<bool>): seq<PlugTask>
    decreases |verdicts|
  {
    if list == [] || verdicts == [] then [] else [list[0]] + Taken(Next(list, verdicts[0]), verdicts[1..])
  }

  /** The tasks still queued after those. */
  function Left(list: seq<PlugTask>, verdicts: seq<bool>): seq<PlugTask>
    decreases |verdicts|
  {
    if list == [] || verdicts == [] then list else Left(Next(list, verdicts[0]), verdicts[1..])
  }

  /** Taking one more task: the head of what is left, which the verdict then prunes. */
  lemma {:induction false} TakenSnoc(list: seq<PlugTask>, verdicts: seq<bool>, v: bool)
    ensures Left(list, verdicts) != [] ==> Taken(list, verdicts + [v]) == Taken(list, verdicts) + [Left(list, verdicts)[0]]
    ensures Left(list, verdicts) != [] ==> Left(list, verdicts + [v]) == Next(Left(list, verdicts), v)
    ensures Left(list, verdicts) == [] ==> Taken(list, verdicts + [v]) == Taken(list, verdicts) && Left(list, verdicts + [v]) == []
    decreases |verdicts|
  {
    if list == [] {
    } else if verdicts == [] {
      assert [] + [v] == [v] && [v][1..] == [];
    } else {
      assert (verdicts + [v])[0] == verdicts[0] && (verdicts + [v])[1..] == verdicts[1..] + [v];
      TakenSnoc(Next(list, verdicts[0]), verdicts[1..], v);
    }
  }

  /** When no verdict is a satisfied global plug, the drain takes the queue in its order. */
  lemma {:induction false} TakenInOrder(list: seq<PlugTask>, verdicts: seq<bool>)
    requires forall k :: 0 <= k < |verdicts| ==> !verdicts[k]
    requires |verdicts| <= |list|
    ensures Taken(list, verdicts) == list[..|verdicts|]
    ensures Left(list, verdicts) == list[|verdicts|..]
    decreases |verdicts|
  {
    if verdicts != [] {
      TakenInOrder(list[1..], verdicts[1..]);
      assert list[..|verdicts|] == [list[0]] + list[1..][..|verdicts| - 1];
    }
  }

  /** The drain takes nothing twice: what it takes and what it leaves add up to no more than the queue. */
  lemma {:induction false} TakenFromQueue(list: seq<PlugTask>, verdicts: seq<bool>)
    ensures multiset(Taken(list, verdicts)) + multiset(Left(list, verdicts)) <= multiset(list)
    decreases |verdicts|
  {
    if list != [] && verdicts != [] {
      var next := Next(list, verdicts[0]);
      TakenFromQueue(next, verdicts[1..]);
      assert list == [list[0]] + list[1..];
      if verdicts[0] && list[0].GlobalTask? {
        WithoutPlugRemovesExactly(list[1..], list[0].plugId);
        assert multiset(next) <= multiset(list[1..]);
      }
    }
  }

  /** `t` is a firing of a plug that a processed run reported satisfied. */
  ghost predicate PrunedBy(t: PlugTask, done: seq<PlugTask>, satisfied: seq<bool>)
    requires |satisfied| == |done|
  {
    exists j :: 0 <= j < |done| && satisfied[j] && done[j].GlobalTask? && SamePlug(t, done[j].plugId)
  }

  /**
   * The invariant of the drain loop, with `done` the tasks processed so far, `satisfied`
   * whether each one was a global plug reported satisfied, and `list` the tasks left: the
   * tasks are taken in delay order; every task of the queue is processed, left, or a
   * pruned firing of a satisfied plug; and no firing of a satisfied plug is left or
   * processed after it.
   */
  ghost predicate Progress(queue: seq<PlugTask>, done: seq<PlugTask>, satisfied: seq<bool>, list: seq<PlugTask>)
  {
    && |satisfied| == |done|
    && SortedByDelay(done + list)
    && multiset(done) + multiset(list) <= multiset(queue)
    && (forall t :: multiset(done)[t] + multiset(list)[t] < multiset(queue)[t] ==> PrunedBy(t, done, satisfied))
    && (forall j :: 0 <= j < |done| && satisfied[j] ==> done[j].GlobalTask?)
    && (forall j, t :: 0 <= j < |done| && satisfied[j] && done[j].GlobalTask? && t in list ==> !SamePlug(t, done[j].plugId))
    && (forall j, k :: 0 <= j < k < |done| && satisfied[j] && done[j].GlobalTask? ==> !SamePlug(done[k], done[j].plugId))
  }

  lemma ProgressStart(queue: seq<PlugTask>)
    requires SortedByDelay(queue)
    ensures Progress(queue, [], [], queue)
  {
    assert [] + queue == queue;
  }

  /** A concatenation is sorted exactly when its parts are and the first part comes no later. */
  lemma SortedParts(p: seq<PlugTask>, s: seq<PlugTask>)
    ensures SortedByDelay(p + s) <==>
      && SortedByDelay(p) && SortedByDelay(s)
      && forall x, y :: x in p && y in s ==> x.delay <= y.delay
  {
    var c := p + s;
    if SortedByDelay(c) {
      forall i, j | 0 <= i < j < |s| ensures s[i].delay <= s[j].delay {
        assert s[i] == c[|p| + i] && s[j] == c[|p| + j];
      }
      forall i, j | 0 <= i < j < |p| ensures p[i].delay <= p[j].delay {
        assert p[i] == c[i] && p[j] == c[j];
      }
      forall x, y | x in p && y in s ensures x.delay <= y.delay {
        var i :| 0 <= i < |p| && p[i] == x;
        var j :| 0 <= j < |s| && s[j] == y;
        assert c[i] == x && c[|p| + j] == y;
      }
    }
    if && SortedByDelay(p) && SortedByDelay(s) && forall x, y :: x in p && y in s ==> x.delay <= y.delay {
      forall i, j | 0 <= i < j < |c| ensures c[i].delay <= c[j].delay {
        if j < |p| {
          assert c[i] == p[i] && c[j] == p[j];
        } else if i >= |p| {
          assert c[i] == s[i - |p|] && c[j] == s[j - |p|];
        } else {
          assert c[i] == p[i] && c[j] == s[j - |p|];
        }
      }
    }
  }

  /** Pruning what is left keeps the processed tasks and the rest in delay order. */
  lemma SortedWithout(p: seq<PlugTask>, s: seq<PlugTask>, id: string)
    requires SortedByDelay(p + s)
    ensures SortedByDelay(p + WithoutPlug(s, id))
  {
    var w := WithoutPlug(s, id);
    SortedParts(p, s);
    WithoutPlugSorted(s, id);
    WithoutPlugRemovesExactly(s, id);
    forall y | y in w ensures y in s {
      assert y in multiset(w);
    }
    SortedParts(p, w);
  }

  /** The multiset facts of one step of the drain loop. */
  lemma CountStep(queue: seq<PlugTask>, done: seq<PlugTask>, list: seq<PlugTask>, rest: seq<PlugTask>, sat: bool)
    requires list != [] && (sat ==> list[0].GlobalTask?)
    requires rest == if sat then WithoutPlug(list[1..], list[0].plugId) else list[1..]
    requires multiset(done) + multiset(list) <= multiset(queue)
    ensures multiset(done + [list[0]]) + multiset(rest) <= multiset(queue)
    ensures forall t :: !(sat && SamePlug(t, list[0].plugId)) ==>
      multiset(done + [list[0]])[t] + multiset(rest)[t] == multiset(done)[t] + multiset(list)[t]
    ensures forall t :: t in rest ==> t in list[1..] && !(sat && SamePlug(t, list[0].plugId))
  {
    assert list == [list[0]] + list[1..];
    assert multiset(done + [list[0]]) == multiset(done) + multiset{list[0]};
    if sat {
      WithoutPlugRemovesExactly(list[1..], list[0].plugId);
      forall t | t in rest ensures t in list[1..] && !SamePlug(t, list[0].plugId) {
        assert t in multiset(rest);
      }
    }
  }

  /** One step of the drain loop keeps its invariant. */
  lemma ProgressStep(queue: seq<PlugTask>, done: seq<PlugTask>, satisfied: seq<bool>, list: seq<PlugTask>, sat: bool, rest: seq<PlugTask>)
    requires Progress(queue, done, satisfied, list) && list != []
    requires sat ==> list[0].GlobalTask?
    requires rest == if sat then WithoutPlug(list[1..], list[0].plugId) else list[1..]
    ensures Progress(queue, done + [list[0]], satisfied + [sat], rest)
  {
    var todo := list[0];
    assert (done + [todo]) + list[1..] == done + list;
    if sat {
      SortedWithout(done + [todo], list[1..], todo.plugId);
    }
    CountStep(queue, done, list, rest, sat);
    PrunedStep(queue, done, satisfied, list, sat, rest);
    OrderStep(done, satisfied, list, sat, rest);
  }

  /** Every task missing after a step is a pruned firing of a satisfied plug. */
  lemma PrunedStep(queue: seq<PlugTask>, done: seq<PlugTask>, satisfied: seq<bool>, list: seq<PlugTask>, sat: bool, rest: seq<PlugTask>)
    requires |satisfied| == |done| && list != [] && (sat ==> list[0].GlobalTask?)
    requires forall t :: multiset(done)[t] + multiset(list)[t] < multiset(queue)[t] ==> PrunedBy(t, done, satisfied)
    requires forall t :: !(sat && SamePlug(t, list[0].plugId)) ==>
      multiset(done + [list[0]])[t] + multiset(rest)[t] == multiset(done)[t] + multiset(list)[t]
    ensures forall t :: multiset(done + [list[0]])[t] + multiset(rest)[t] < multiset(queue)[t] ==>
      PrunedBy(t, done + [list[0]], satisfied + [sat])
  {
    var todo := list[0];
    var done' := done + [todo];
    var satisfied' := satisfied + [sat];
    forall t | multiset(done')[t] + multiset(rest)[t] < multiset(queue)[t] ensures PrunedBy(t, done', satisfied') {
      if sat && SamePlug(t, todo.plugId) {
        assert done'[|done|] == todo && satisfied'[|done|];
      } else {
        var j :| 0 <= j < |done| && satisfied[j] && done[j].GlobalTask? && SamePlug(t, done[j].plugId);
        assert done'[j] == done[j] && satisfied'[j];
      }
    }
  }

  /** After a step no firing of a satisfied plug is left or processed after it. */
  lemma OrderStep(done: seq<PlugTask>, satisfied: seq<bool>, list: seq<PlugTask>, sat: bool, rest: seq<PlugTask>)
    requires |satisfied| == |done| && list != [] && (sat ==> list[0].GlobalTask?)
    requires forall j :: 0 <= j < |done| && satisfied[j] ==> done[j].GlobalTask?
    requires forall j, t :: 0 <= j < |done| && satisfied[j] && done[j].GlobalTask? && t in list ==> !SamePlug(t, done[j].plugId)
    requires forall j, k :: 0 <= j < k < |done| && satisfied[j] && done[j].GlobalTask? ==> !SamePlug(done[k], done[j].plugId)
    requires forall t :: t in rest ==> t in list[1..] && !(sat && SamePlug(t, list[0].plugId))
    ensures var done', satisfied' := done + [list[0]], satisfied + [sat];
      && (forall j :: 0 <= j < |done'| && satisfied'[j] ==> done'[j].GlobalTask?)
      && (forall j, t :: 0 <= j < |done'| && satisfied'[j] && done'[j].GlobalTask? && t in rest ==> !SamePlug(t, done'[j].plugId))
      && (forall j, k :: 0 <= j < k < |done'| && satisfied'[j] && done'[j].GlobalTask? ==> !SamePlug(done'[k], done'[j].plugId))
  {
    var todo := list[0];
    var done' := done + [todo];
    var satisfied' := satisfied + [sat];
    forall j, t | 0 <= j < |done'| && satisfied'[j] && done'[j].GlobalTask? && t in rest ensures !SamePlug(t, done'[j].plugId) {
      if j < |done| {
        assert done'[j] == done[j] && satisfied'[j] == satisfied[j];
        assert t in list;
      }
    }
    forall j, k | 0 <= j < k < |done'| && satisfied'[j] && done'[j].GlobalTask? ensures !SamePlug(done'[k], done'[j].plugId) {
      assert done'[j] == done[j] && satisfied'[j] == satisfied[j];
      if k == |done| {
        assert done'[k] == todo && todo in list;
      } else {
        assert done'[k] == done[k];
      }
    }
    forall j | 0 <= j < |done'| && satisfied'[j] ensures done'[j].GlobalTask? {
      if j < |done| {
        assert done'[j] == done[j] && satisfied'[j] == satisfied[j];
      }
    }
  }

  /** The child workflow that repeats a recurring post; only the prefix of its random id is modelled. */
  function RepeatChild(args: WorkflowArgs, firstItemId: string): (r: ChildRun)
    ensures r.postNow && r.parentClosePolicy == "ABANDON"
    ensures r.postId == args.postId && r.searchPostId == args.postId && r.organizationId == args.organizationId
    ensures r.taskQueue == args.taskQueue && r.workflowIdPrefix == "post_" + firstItemId + "_"
  {
    ChildRun("post_" + firstItemId + "_", args.taskQueue, args.postId, args.organizationId, true, "ABANDON", args.postId)
  }

  /** The trace summaries after the sleep and the processing of one more task. */
  lemma DrainStep(events: seq<Event>, todo: PlugTask, more: seq<Event>, done: seq<PlugTask>, child: ChildRun)
    requires PlugTrace(events) && Sleeps(events) == Delays(done) && ChildCount(events) == RepeatCount(done) && Children(events, child)
    requires PlugTrace(more) && Sleeps(more) == [] && ChildCount(more) == (if todo.RepeatTask? then 1 else 0) && Children(more, child)
    ensures var events', done' := events + ([Slept(todo.delay)] + more), done + [todo];
      && PlugTrace(events') && Sleeps(events') == Delays(done')
      && ChildCount(events') == RepeatCount(done') && Children(events', child)
  {
    var waited := Slept(todo.delay);
    PlugConcatFacts(events, [waited] + more);
    PlugConcatFacts([waited], more);
    ChildrenConcat(events, [waited] + more, child);
    ChildrenConcat([waited], more, child);
    OneEvent(waited, 0, "", "");
    assert [waited][1..] == [] && [todo][1..] == [];
    TasksConcat(done, [todo]);
  }

  /**
   * The processing of one task taken from the queue: the attempts at an internal or a
   * global plug, or the start of the repeat child.
   */
  method ProcessTask(history: seq<Event>, todo: PlugTask, organizationId: string, anchor: string, integration: Integration,
                     child: ChildRun, env: Env)
    returns (more: seq<Event>, sat: bool)
    ensures TaskRun(more, todo, sat, anchor, organizationId, integration.id, child)
    ensures sat ==> todo.GlobalTask?
  {
    sat := false;
    if todo.InternalTask? {
      more := RunInternalPlug(history, todo, organizationId, anchor, env);
    } else if todo.GlobalTask? {
      more, sat := RunGlobalPlug(history, todo, integration, anchor, env);
    } else {
      more := [ChildStarted(child)];
    }
  }

  /** Every processed task has its run. */
  ghost predicate AllRuns(done: seq<PlugTask>, satisfied: seq<bool>, runs: seq<seq<Event>>, postId: string, organizationId: string,
                          integrationId: string, child: ChildRun)
    requires |satisfied| == |done| == |runs|
  {
    forall k :: 0 <= k < |done| ==> TaskRun(runs[k], done[k], satisfied[k], postId, organizationId, integrationId, child)
  }

  /**
   * Every processed plug is run at least once, and a task is satisfied only when it is a
   * global plug whose last run replied `true`.
   */
  lemma ProcessedTasksRun(done: seq<PlugTask>, satisfied: seq<bool>, runs: seq<seq<Event>>, postId: string, organizationId: string,
                          integrationId: string, child: ChildRun)
    requires |satisfied| == |done| == |runs|
    requires AllRuns(done, satisfied, runs, postId, organizationId, integrationId, child)
    ensures forall k :: 0 <= k < |done| && !done[k].RepeatTask? ==> PlugRuns(runs[k]) >= 1
    ensures forall k :: 0 <= k < |done| && satisfied[k] ==>
      done[k].GlobalTask? && runs[k] != [] && runs[k][|runs[k]| - 1] == GlobalPlugRun(done[k], postId, Ok(true))
  {
    forall k | 0 <= k < |done|
      ensures !done[k].RepeatTask? ==> PlugRuns(runs[k]) >= 1
      ensures satisfied[k] ==> done[k].GlobalTask? && runs[k] != [] && runs[k][|runs[k]| - 1] == GlobalPlugRun(done[k], postId, Ok(true))
    {
      assert TaskRun(runs[k], done[k], satisfied[k], postId, organizationId, integrationId, child);
    }
  }

  lemma RunsStep(done: seq<PlugTask>, satisfied: seq<bool>, runs: seq<seq<Event>>, todo: PlugTask, sat: bool, more: seq<Event>,
                 postId: string, organizationId: string, integrationId: string, child: ChildRun)
    requires |satisfied| == |done| == |runs|
    requires AllRuns(done, satisfied, runs, postId, organizationId, integrationId, child)
    requires TaskRun(more, todo, sat, postId, organizationId, integrationId, child)
    ensures AllRuns(done + [todo], satisfied + [sat], runs + [more], postId, organizationId, integrationId, child)
  {
    var done', satisfied', runs' := done + [todo], satisfied + [sat], runs + [more];
    forall k | 0 <= k < |done'| ensures TaskRun(runs'[k], done'[k], satisfied'[k], postId, organizationId, integrationId, child) {
      if k < |done| {
        assert runs'[k] == runs[k] && done'[k] == done[k] && satisfied'[k] == satisfied[k];
      }
    }
  }

  /** The reference drain and the segments after taking `todo`, whose processing gave `more` and `sat`. */
  lemma TakeStep(queue: seq<PlugTask>, done: seq<PlugTask>, satisfied: seq<bool>, runs: seq<seq<Event>>, todo: PlugTask, sat: bool, more: seq<Event>)
    requires |runs| == |done| && Left(queue, satisfied) != [] && todo == Left(queue, satisfied)[0]
    requires done == Taken(queue, satisfied)
    ensures done + [todo] == Taken(queue, satisfied + [sat])
    ensures Left(queue, satisfied + [sat]) == Next(Left(queue, satisfied), sat)
    ensures Segments(done + [todo], runs + [more]) == Segments(done, runs) + ([Slept(todo.delay)] + more)
  {
    TakenSnoc(queue, satisfied, sat);
    assert (done + [todo])[..|done|] == done && (runs + [more])[..|runs|] == runs;
  }

  /** Starting the repeat of a recurring post. */
  lemma ChildFacts(child: ChildRun)
    ensures PlugTrace([ChildStarted(child)]) && Sleeps([ChildStarted(child)]) == []
    ensures ChildCount([ChildStarted(child)]) == 1 && Children([ChildStarted(child)], child)
  {
    OneEvent(ChildStarted(child), 0, "", "");
    assert [ChildStarted(child)][1..] == [];
  }

  /**
   * The drain loop: take the first task of the queue, sleep its delay, then run the internal
   * plug, run the global plug (pruning its other firings when it is satisfied), or start
   * the repeat of the post as a child workflow. `done` is the tasks in the order they were
   * taken, `satisfied` says which of them were global plugs reported satisfied, and `runs`
   * holds the events of each one's processing.
   */
  method DrainPlugQueue(history: seq<Event>, queue: seq<PlugTask>, args: WorkflowArgs, firstItemId: string,
                        anchor: string, integration: Integration, env: Env)
    returns (events: seq<Event>, done: seq<PlugTask>, satisfied: seq<bool>, runs: seq<seq<Event>>)
    requires SortedByDelay(queue)
    ensures |satisfied| == |done| == |runs|
    ensures done == Taken(queue, satisfied) && Left(queue, satisfied) == []
    ensures events == Segments(done, runs)
    ensures AllRuns(done, satisfied, runs, anchor, args.organizationId, integration.id, RepeatChild(args, firstItemId))
    ensures PlugTrace(events)
    ensures Sleeps(events) == Delays(done)
    ensures ChildCount(events) == RepeatCount(done)
    ensures Children(events, RepeatChild(args, firstItemId))
    ensures Drained(multiset(queue), done, satisfied)
  {
    var child := RepeatChild(args, firstItemId);
    var list := queue;
    events := [];
    done := [];
    satisfied := [];
    runs := [];
    while list != []
      invariant |satisfied| == |done| == |runs|
      invariant done == Taken(queue, satisfied) && list == Left(queue, satisfied)
      invariant events == Segments(done, runs)
      invariant AllRuns(done, satisfied, runs, anchor, args.organizationId, integration.id, child)
      decreases |list|
    {
      var todo := list[0];
      var waited := [Slept(todo.delay)];
      var more, sat := ProcessTask(history + events + waited, todo, args.organizationId, anchor, integration, child, env);
      var rest := list[1..];
      if sat {
        rest := PruneSamePlug(rest, todo.plugId);
      }
      TakeStep(queue, done, satisfied, runs, todo, sat, more);
      RunsStep(done, satisfied, runs, todo, sat, more, anchor, args.organizationId, integration.id, child);
      events := events + (waited + more);
      done := done + [todo];
      satisfied := satisfied + [sat];
      runs := runs + [more];
      list := rest;
    }
    SegmentsFacts(done, satisfied, runs, anchor, args.organizationId, integration.id, child);
    forall j | 0 <= j < |satisfied| && satisfied[j] ensures done[j].GlobalTask? {
      assert TaskRun(runs[j], done[j], satisfied[j], anchor, args.organizationId, integration.id, child);
    }
    TakenDrained(queue, satisfied);
  }

  /**
   * A drain of a sorted queue that runs until nothing is left, with a verdict for every
   * task it takes and only global plugs satisfied, leaves what `Drained` describes.
   */
  lemma TakenDrained(queue: seq<PlugTask>, verdicts: seq<bool>)
    requires SortedByDelay(queue)
    requires |Taken(queue, verdicts)| == |verdicts| && Left(queue, verdicts) == []
    requires forall j :: 0 <= j < |verdicts| && verdicts[j] ==> Taken(queue, verdicts)[j].GlobalTask?
    ensures Drained(multiset(queue), Taken(queue, verdicts), verdicts)
  {
    TakenProgress(queue, verdicts);
    assert Taken(queue, verdicts) + [] == Taken(queue, verdicts);
  }

  /** The trace summaries of a drain, from the runs of its tasks. */
  lemma {:induction false} SegmentsFacts(done: seq<PlugTask>, satisfied: seq<bool>, runs: seq<seq<Event>>, postId: string,
                                         organizationId: string, integrationId: string, child: ChildRun)
    requires |satisfied| == |done| == |runs|
    requires AllRuns(done, satisfied, runs, postId, organizationId, integrationId, child)
    ensures var events := Segments(done, runs);
      && PlugTrace(events) && Sleeps(events) == Delays(done)
      && ChildCount(events) == RepeatCount(done) && Children(events, child)
    decreases |done|
  {
    if done != [] {
      var n := |done| - 1;
      RunsLast(done, satisfied, runs, postId, organizationId, integrationId, child);
      SegmentsFacts(done[..n], satisfied[..n], runs[..n], postId, organizationId, integrationId, child);
      DrainStep(Segments(done[..n], runs[..n]), done[n], runs[n], done[..n], child);
      assert done[..n] + [done[n]] == done;
    }
  }

  /** The runs of all tasks but the last, and the summaries of the last one's run. */
  lemma RunsLast(done: seq<PlugTask>, satisfied: seq<bool>, runs: seq<seq<Event>>, postId: string,
                 organizationId: string, integrationId: string, child: ChildRun)
    requires |satisfied| == |done| == |runs| > 0
    requires AllRuns(done, satisfied, runs, postId, organizationId, integrationId, child)
    ensures var n := |done| - 1;
      AllRuns(done[..n], satisfied[..n], runs[..n], postId, organizationId, integrationId, child)
    ensures var n, run := |done| - 1, runs[|done| - 1];
      && PlugTrace(run) && Sleeps(run) == [] && ChildCount(run) == (if done[n].RepeatTask? then 1 else 0) && Children(run, child)
  {
    var n := |done| - 1;
    forall k | 0 <= k < n
      ensures TaskRun(runs[..n][k], done[..n][k], satisfied[..n][k], postId, organizationId, integrationId, child)
    {
      assert runs[..n][k] == runs[k] && done[..n][k] == done[k] && satisfied[..n][k] == satisfied[k];
    }
    TaskRunFacts(runs[n], done[n], satisfied[n], postId, organizationId, integrationId, child);
  }

  /** The summaries of the processing of one task. */
  lemma TaskRunFacts(run: seq<Event>, task: PlugTask, sat: bool, postId: string, organizationId: string,
                     integrationId: string, child: ChildRun)
    requires TaskRun(run, task, sat, postId, organizationId, integrationId, child)
    ensures PlugTrace(run) && Sleeps(run) == [] && ChildCount(run) == (if task.RepeatTask? then 1 else 0) && Children(run, child)
  {
    if task.RepeatTask? {
      ChildFacts(child);
    } else {
      RunTraceFacts(run, task, postId, organizationId, integrationId, child);
    }
  }

  /** The drain never takes more tasks than it has verdicts. */
  lemma {:induction false} TakenLength(list: seq<PlugTask>, verdicts: seq<bool>)
    ensures |Taken(list, verdicts)| <= |verdicts|
    decreases |verdicts|
  {
    if list != [] && verdicts != [] {
      TakenLength(Next(list, verdicts[0]), verdicts[1..]);
    }
  }

  /**
   * The reference drain keeps the invariant of the drain loop: every task is taken in
   * delay order, left, or pruned after a satisfied firing of its plug.
   */
  lemma {:induction false} TakenProgress(queue: seq<PlugTask>, verdicts: seq<bool>)
    requires SortedByDelay(queue)
    requires |Taken(queue, verdicts)| == |verdicts|
    requires forall j :: 0 <= j < |verdicts| && verdicts[j] ==> Taken(queue, verdicts)[j].GlobalTask?
    ensures Progress(queue, Taken(queue, verdicts), verdicts, Left(queue, verdicts))
    decreases |verdicts|
  {
    if verdicts == [] {
      ProgressStart(queue);
    } else {
      var n := |verdicts| - 1;
      var vs, v := verdicts[..n], verdicts[n];
      assert verdicts == vs + [v];
      TakenSnoc(queue, vs, v);
      TakenLength(queue, vs);
      var done, list := Taken(queue, vs), Left(queue, vs);
      assert list != [];
      assert Taken(queue, verdicts) == done + [list[0]];
      forall j | 0 <= j < |vs| && vs[j] ensures done[j].GlobalTask? {
        assert Taken(queue, verdicts)[j] == done[j];
      }
      TakenProgress(queue, vs);
      assert v ==> list[0].GlobalTask? by {
        assert Taken(queue, verdicts)[n] == list[0];
      }
      ProgressStep(queue, done, vs, list, v, Next(list, v));
    }
  }

  /**
   * What the drain loop leaves behind, for the tasks `pending` it was given: the tasks it
   * processed are among them, in delay order; each one it did not process is a firing of a
   * plug it had found satisfied; and no firing of a satisfied plug is processed after it.
   */
  ghost predicate Drained(pending: multiset<PlugTask>, done: seq<PlugTask>, satisfied: seq<bool>)
  {
    && |satisfied| == |done|
    && SortedByDelay(done)
    && multiset(done) <= pending
    && (forall t :: multiset(done)[t] < pending[t] ==> PrunedBy(t, done, satisfied))
    && (forall j :: 0 <= j < |done| && satisfied[j] ==> done[j].GlobalTask?)
    && (forall j, k :: 0 <= j < k < |done| && satisfied[j] && done[j].GlobalTask? ==> !SamePlug(done[k], done[j].plugId))
  }

  /** Only global plug firings are ever pruned: every other task is processed as often as it was queued. */
  lemma OnlyGlobalPruned(pending: multiset<PlugTask>, done: seq<PlugTask>, satisfied: seq<bool>)
    requires Drained(pending, done, satisfied)
    ensures forall t: PlugTask :: !t.GlobalTask? ==> multiset(done)[t] == pending[t]
  {
  }

  /** When no global plug is reported satisfied, nothing is pruned: every queued task is processed. */
  lemma NothingPrunedUnlessSatisfied(pending: multiset<PlugTask>, done: seq<PlugTask>, satisfied: seq<bool>)
    requires Drained(pending, done, satisfied)
    requires forall j :: 0 <= j < |satisfied| ==> !satisfied[j]
    ensures multiset(done) == pending
  {
    forall t
      ensures multiset(done)[t] == pending[t]
    {
      assert !PrunedBy(t, done, satisfied);
    }
  }
}
