/**
 * `postWorkflowV101` as a whole: load the post and its comments, pass the gate, wait for
 * the publication time, check the integration, publish, then send the webhooks, gather
 * the plugs and drain the plug queue.
 */
module PostWorkflow {
  import opened Wrappers
  import opened PlugQueue
  import opened PostTrace
  import PostPublish
  import PlugDrain

  /** How a run ends: skipped before publishing, aborted by a failure, completed, or thrown out of. */
  datatype Outcome = Skipped | Aborted(reason: Failure) | Completed | Crashed

  /** The posts the run works on, main post first. */
  function Posts(args: WorkflowArgs, env: Env): seq<PostItem>
  {
    env.getPostsList(args.organizationId, args.postId)
  }

  /** The gate: a post exists and, unless the run publishes now, it is still queued. */
  predicate Admitted(args: WorkflowArgs, posts: seq<PostItem>)
  {
    |posts| > 0 && (args.postNow || posts[0].state == "QUEUE")
  }

  /** The wait for the publication time: none when publishing now, none for a date already past. */
  function Wait(postNow: bool, msUntilPublish: int): (r: seq<Event>)
    ensures postNow <==> r == []
    ensures !postNow ==> r == [Slept(if msUntilPublish < 0 then 0 else msUntilPublish)] && r[0].milliseconds >= 0
  {
    if postNow then [] else [Slept(if msUntilPublish < 0 then 0 else msUntilPublish)]
  }

  /** The events before publishing: the load, the wait, the notices and the comment check. */
  predicate OpeningEvent(e: Event)
  {
    e.PostsLoaded? || e.Slept? || e.CommentableChecked? || (e.Notified? && e.notice == InfoNotice)
  }

  predicate OpeningTrace(s: seq<Event>)
  {
    s == [] || (OpeningEvent(s[0]) && OpeningTrace(s[1..]))
  }

  lemma {:induction false} OpeningConcat(a: seq<Event>, b: seq<Event>)
    ensures OpeningTrace(a + b) <==> OpeningTrace(a) && OpeningTrace(b)
    decreases |a|
  {
    if a == [] {
      assert a + b == b;
    } else {
      assert (a + b)[1..] == a[1..] + b;
      OpeningConcat(a[1..], b);
    }
  }

  /** The opening neither publishes nor fails nor starts a child. */
  lemma {:induction false} OpeningFacts(s: seq<Event>, token: string)
    requires OpeningTrace(s)
    ensures Harvest(s) == [] && Failures(s) == 0 && FailureNotices(s) == 0 && ChildCount(s) == 0
    ensures forall j: nat :: Calls(s, j) == 0
    ensures TokensCurrent(s, token) && TokenAfter(s, token) == token
    ensures NoComments(s)
    decreases |s|
  {
    if s != [] {
      OpeningFacts(s[1..], token);
      assert s == [s[0]] + s[1..];
      ConcatFacts([s[0]], s[1..], token);
      PlugConcatFacts([s[0]], s[1..]);
      OneEvent(s[0], 0, "", token);
    }
  }

  /** The opening settles no item. */
  lemma {:induction false} OpeningOutcomes(s: seq<Event>)
    requires OpeningTrace(s)
    ensures forall j: nat :: Successes(s, j) == 0 && ItemFailures(s, j) == 0
    decreases |s|
  {
    if s != [] {
      OpeningOutcomes(s[1..]);
    }
  }

  /** The opening records no ERROR and does no plug work. */
  lemma OpeningIsQuiet(s: seq<Event>)
    requires OpeningTrace(s)
    ensures ErrorsFollowFailures(s)
    ensures forall k :: 0 <= k < |s| ==> !PlugWork(s[k])
  {
    forall k | 0 <= k < |s| ensures OpeningEvent(s[k]) {
      OpeningAt(s, k);
    }
  }

  lemma {:induction false} OpeningAt(s: seq<Event>, k: nat)
    requires OpeningTrace(s) && k < |s|
    ensures OpeningEvent(s[k])
    decreases k
  {
    if k > 0 {
      OpeningAt(s[1..], k - 1);
    }
  }

  /** The opening events of a run that passed the gate. */
  lemma OpeningOf(args: WorkflowArgs, msUntilPublish: int, last: seq<Event>)
    requires last == [] || (|last| == 1 && OpeningEvent(last[0]))
    ensures OpeningTrace([PostsLoaded(args.organizationId, args.postId)] + Wait(args.postNow, msUntilPublish) + last)
  {
    var loaded := [PostsLoaded(args.organizationId, args.postId)];
    var wait := Wait(args.postNow, msUntilPublish);
    OpeningConcat(loaded + wait, last);
    OpeningConcat(loaded, wait);
    assert loaded[1..] == [];
    if wait != [] {
      assert wait[1..] == [];
    }
    if last != [] {
      assert last[1..] == [];
    }
  }

  /**
   * The work after a successful publication: the webhooks for the first result, the
   * internal and global plugs loaded with the current token, and the drain of the plug
   * queue they make, `done` being the tasks taken in order, `satisfied` their verdicts and
   * `runs` their processing.
   */
  method FollowUp(history: seq<Event>, args: WorkflowArgs, post: PostItem, results: seq<PostResponse>, token: string,
                  elapsedMilliseconds: int, env: Env)
    returns (events: seq<Event>, internal: seq<InternalPlug>, global: seq<GlobalPlug>,
             done: seq<PlugTask>, satisfied: seq<bool>, runs: seq<seq<Event>>)
    requires |results| > 0
    ensures |events| >= 3
    ensures events[..3] == [WebhooksSent(results[0].postId, post.organizationId, post.integration.id),
                            InternalPlugsLoaded(internal), GlobalPlugsLoaded(global)]
    ensures var queue := SortByDelay(Gathered(internal, global, post.intervalInDays, elapsedMilliseconds));
      done == PlugDrain.Taken(queue, satisfied) && PlugDrain.Left(queue, satisfied) == []
    ensures |satisfied| == |done| == |runs| && events[3..] == PlugDrain.Segments(done, runs)
    ensures PlugDrain.AllRuns(done, satisfied, runs, results[0].postId, args.organizationId, post.integration.id,
                              PlugDrain.RepeatChild(args, post.id))
    ensures Sleeps(events) == PlugDrain.Delays(done)
    ensures PlugTrace(events)
    ensures ChildCount(events) == if post.intervalInDays != 0 then 1 else 0
    ensures PlugDrain.Children(events, PlugDrain.RepeatChild(args, post.id))
  {
    var integration := post.integration.(token := token);
    var sent := WebhooksSent(results[0].postId, post.organizationId, post.integration.id);
    internal := env.internalPlugs(history + [sent], integration, post.settings);
    global := env.globalPlugs(history + [sent, InternalPlugsLoaded(internal)], integration);
    var opening := [sent, InternalPlugsLoaded(internal), GlobalPlugsLoaded(global)];
    var drained;
    drained, done, satisfied, runs := RunPlugQueue(history + opening, args, post, internal, global, integration, results[0].postId,
                                                   elapsedMilliseconds, env);
    FollowUpFacts(opening, drained, PlugDrain.RepeatChild(args, post.id));
    events := opening + drained;
  }

  /** The summaries of the work after publication, from those of its parts. */
  lemma FollowUpFacts(opening: seq<Event>, drained: seq<Event>, child: ChildRun)
    requires |opening| == 3 && opening[0].WebhooksSent? && opening[1].InternalPlugsLoaded? && opening[2].GlobalPlugsLoaded?
    requires PlugTrace(drained) && PlugDrain.Children(drained, child)
    ensures (opening + drained)[..3] == opening && (opening + drained)[3..] == drained
    ensures Sleeps(opening + drained) == Sleeps(drained)
    ensures PlugTrace(opening + drained)
    ensures ChildCount(opening + drained) == ChildCount(drained)
    ensures PlugDrain.Children(opening + drained, child)
  {
    LoadingFacts(opening, child);
    PlugConcatFacts(opening, drained);
    PlugDrain.ChildrenConcat(opening, drained, child);
    assert (opening + drained)[..3] == opening;
    assert (opening + drained)[3..] == drained;
  }

  /**
   * The plug queue of a published post: its internal plugs, the firings of its global
   * plugs and its repeat, sorted stably by delay and drained from the front, each task
   * after its sleep, a satisfied global plug pruning its later firings. The repeat child
   * starts exactly once for a recurring post and never for a one-off one.
   */
  method RunPlugQueue(history: seq<Event>, args: WorkflowArgs, post: PostItem, internal: seq<InternalPlug>, global: seq<GlobalPlug>,
                      integration: Integration, anchor: string, elapsedMilliseconds: int, env: Env)
    returns (events: seq<Event>, done: seq<PlugTask>, satisfied: seq<bool>, runs: seq<seq<Event>>)
    ensures var queue := SortByDelay(Gathered(internal, global, post.intervalInDays, elapsedMilliseconds));
      done == PlugDrain.Taken(queue, satisfied) && PlugDrain.Left(queue, satisfied) == []
    ensures |satisfied| == |done| == |runs| && events == PlugDrain.Segments(done, runs)
    ensures PlugDrain.AllRuns(done, satisfied, runs, anchor, args.organizationId, integration.id, PlugDrain.RepeatChild(args, post.id))
    ensures PlugTrace(events)
    ensures Sleeps(events) == PlugDrain.Delays(done)
    ensures ChildCount(events) == if post.intervalInDays != 0 then 1 else 0
    ensures PlugDrain.Children(events, PlugDrain.RepeatChild(args, post.id))
    ensures PlugDrain.Drained(multiset(Gathered(internal, global, post.intervalInDays, elapsedMilliseconds)), done, satisfied)
  {
    var queue := BuildPlugQueue(internal, global, post.intervalInDays, elapsedMilliseconds);
    events, done, satisfied, runs := PlugDrain.DrainPlugQueue(history, queue, args, post.id, anchor, integration, env);
    PlugDrain.OnlyGlobalPruned(multiset(queue), done, satisfied);
    RepeatOnce(done, queue, internal, global, post.intervalInDays, elapsedMilliseconds);
  }

  /** The repeat of a recurring post is never pruned, so it runs once; a one-off post has none. */
  lemma RepeatOnce(done: seq<PlugTask>, queue: seq<PlugTask>, internal: seq<InternalPlug>, global: seq<GlobalPlug>,
                   intervalInDays: int, elapsedMilliseconds: int)
    requires multiset(queue) == multiset(Gathered(internal, global, intervalInDays, elapsedMilliseconds))
    requires multiset(done) <= multiset(queue)
    requires forall t: PlugTask :: !t.GlobalTask? ==> multiset(done)[t] == multiset(queue)[t]
    ensures PlugDrain.RepeatCount(done) == if intervalInDays != 0 then 1 else 0
  {
    var x := RepeatTask(intervalInDays * DayMilliseconds - elapsedMilliseconds);
    RepeatsOfGathered(internal, global, intervalInDays, elapsedMilliseconds);
    forall t | t in done && t.RepeatTask? ensures t == x {
      assert t in multiset(done);
    }
    PlugDrain.RepeatCountOfOne(done, x);
  }

  lemma LoadingFacts(s: seq<Event>, child: ChildRun)
    requires |s| == 3 && s[0].WebhooksSent? && s[1].InternalPlugsLoaded? && s[2].GlobalPlugsLoaded?
    ensures PlugTrace(s) && ChildCount(s) == 0 && Sleeps(s) == [] && PlugDrain.Children(s, child)
  {
    assert s == [s[0]] + ([s[1]] + [s[2]]);
    PlugConcatFacts([s[0]], [s[1]] + [s[2]]);
    PlugConcatFacts([s[1]], [s[2]]);
    PlugDrain.ChildrenConcat([s[0]], [s[1]] + [s[2]], child);
    PlugDrain.ChildrenConcat([s[1]], [s[2]], child);
    OneEvent(s[0], 0, "", "");
    OneEvent(s[1], 0, "", "");
    OneEvent(s[2], 0, "", "");
    PlugDrain.ChildrenOne(s[0], child);
    PlugDrain.ChildrenOne(s[1], child);
    PlugDrain.ChildrenOne(s[2], child);
  }

  /** The facts about the comment check and the publish loop, from those of the parts. */
  lemma FrontFacts(checked: seq<Event>, published: seq<Event>, posts: seq<PostItem>, toComment: bool, token: string, child: ChildRun)
    requires |posts| > 0
    requires checked == [] || checked == [CommentableChecked(toComment)]
    requires checked == [] <==> |posts| == 1
    requires checked == [] ==> !toComment
    requires PublishTrace(published)
    requires forall j: nat :: Calls(published, j) <= PostPublish.Slots && (j >= |posts| ==> Calls(published, j) == 0)
    requires !toComment ==> NoComments(published)
    requires TokensCurrent(published, posts[0].integration.token) && token == TokenAfter(published, posts[0].integration.token)
    requires ErrorsFollowFailures(published)
    requires FailuresAnswered(published, posts[0].id, posts[0].integration.id)
    ensures var front := checked + published;
      && Disciplined(posts, front)
      && Harvest(front) == Harvest(published) && FailureNotices(front) == FailureNotices(published) && ChildCount(front) == 0
      && token == TokenAfter(front, posts[0].integration.token)
      && (forall k :: 0 <= k < |front| ==> !PlugWork(front[k]))
      && PlugDrain.Children(front, child)
  {
    var front := checked + published;
    OpeningConcat(checked, []);
    if checked != [] {
      assert checked[1..] == [];
    }
    OpeningFacts(checked, posts[0].integration.token);
    OpeningIsQuiet(checked);
    ConcatFacts(checked, published, posts[0].integration.token);
    PlugConcatFacts(checked, published);
    ErrorsFollowFailuresConcat(checked, published);
    NoFailureAnswered(checked, posts[0].id, posts[0].integration.id);
    FailuresAnsweredConcat(checked, published, posts[0].id, posts[0].integration.id);
    FrontIsQuiet(checked, published);
    NoChildren(front, child);
    if toComment {
      assert front[0] == CommentableChecked(true);
    }
  }

  /** The comment check and the publish loop do no plug work, and only the first checks comments. */
  lemma FrontIsQuiet(checked: seq<Event>, published: seq<Event>)
    requires forall k :: 0 <= k < |checked| ==> !PlugWork(checked[k])
    requires PublishTrace(published)
    ensures forall k :: 0 <= k < |checked + published| ==> !PlugWork((checked + published)[k])
    ensures checked == [] ==> forall k :: 0 <= k < |checked + published| ==> !(checked + published)[k].CommentableChecked?
  {
    PublishTraceDoesNoPlugWork(published);
    forall k | 0 <= k < |checked + published|
      ensures !PlugWork((checked + published)[k]) && (checked == [] ==> !(checked + published)[k].CommentableChecked?)
    {
      OpeningPosition(checked, published, k);
    }
  }

  /** A trace without plug work starts no child. */
  lemma {:induction false} NoChildren(s: seq<Event>, child: ChildRun)
    requires forall k :: 0 <= k < |s| ==> !PlugWork(s[k])
    ensures PlugDrain.Children(s, child) && ChildCount(s) == 0
    decreases |s|
  {
    if s != [] {
      assert forall k :: 0 <= k < |s[1..]| ==> s[1..][k] == s[k + 1];
      NoChildren(s[1..], child);
    }
  }

  /**
   * What a run that passed the gate and the integration checks guarantees about its events
   * from the comment check on: the publishing discipline, the ending its outcome names, and
   * the follow-up work exactly when it completes.
   */
  ghost predicate Concluded(args: WorkflowArgs, posts: seq<PostItem>, outcome: Outcome, events: seq<Event>)
    requires |posts| > 0
  {
    Disciplined(posts, events) && Ended(posts, outcome, events) && Sequenced(outcome, events) && Followed(args, posts, outcome, events)
  }

  /**
   * The order of publishing and where it stops: the items are called in list order; a
   * success ends the attempts at its item, which is marked published at most once; a run
   * that did not abort met no cause to abort (no `bad_body` failure, and every
   * `refresh_token` failure directly followed by a refresh that gave a token), and an
   * aborted run met none before the three events that end it.
   */
  ghost predicate Sequenced(outcome: Outcome, events: seq<Event>)
  {
    && CallsInOrder(events)
    && SuccessFinal(events)
    && (forall j: nat :: Successes(events, j) <= 1)
    && (outcome.Aborted? ==> CauseFreeBefore(events))
    && (!outcome.Aborted? ==> NoAbortCause(events))
  }

  /** A run that did not abort saw no `bad_body` failure at all. */
  lemma ConcludedWithoutBadBody(args: WorkflowArgs, posts: seq<PostItem>, outcome: Outcome, events: seq<Event>)
    requires |posts| > 0 && Concluded(args, posts, outcome, events) && !outcome.Aborted?
    ensures forall k :: 0 <= k < |events| ==> AttemptFailure(events[k]) != Some(BadBody)
  {
    forall k | 0 <= k < |events| ensures AttemptFailure(events[k]) != Some(BadBody) {
      CauseFreeAt(events, k);
    }
  }

  /**
   * In a run that did not abort, every `refresh_token` failure is directly followed by a
   * refresh that gave a token: no `ERROR` and no failed refresh in between.
   */
  lemma ConcludedRefreshesRenewed(args: WorkflowArgs, posts: seq<PostItem>, outcome: Outcome, events: seq<Event>)
    requires |posts| > 0 && Concluded(args, posts, outcome, events) && !outcome.Aborted?
    ensures forall k :: 0 <= k < |events| && AttemptFailure(events[k]) == Some(RefreshNeeded) ==>
              k + 1 < |events| && events[k + 1].TokenRefreshed? && Usable(events[k + 1].accessToken)
  {
    forall k | 0 <= k < |events| && AttemptFailure(events[k]) == Some(RefreshNeeded)
      ensures k + 1 < |events| && events[k + 1].TokenRefreshed? && Usable(events[k + 1].accessToken)
    {
      CauseFreeAt(events, k);
    }
  }

  /**
   * Every failed attempt is answered by the next event: a `refresh_token` failure by a
   * refresh of the post's integration, any other failure by the ERROR state of the first
   * post, with that failure as its cause.
   */
  lemma ConcludedFailuresRecorded(args: WorkflowArgs, posts: seq<PostItem>, outcome: Outcome, events: seq<Event>)
    requires |posts| > 0 && Concluded(args, posts, outcome, events)
    ensures forall k :: 0 <= k < |events| && AttemptFailure(events[k]).Some? && AttemptFailure(events[k]) != Some(RefreshNeeded) ==>
              k + 1 < |events| && events[k + 1] == StateChanged(posts[0].id, AttemptFailure(events[k]).value)
    ensures forall k :: 0 <= k < |events| && AttemptFailure(events[k]) == Some(RefreshNeeded) ==>
              k + 1 < |events| && events[k + 1].TokenRefreshed? && events[k + 1].integrationId == posts[0].integration.id
  {
    forall k | 0 <= k < |events| && AttemptFailure(events[k]).Some?
      ensures k + 1 < |events| && Answers(events[k + 1], AttemptFailure(events[k]).value, posts[0].id, posts[0].integration.id)
    {
      FailureAnsweredAt(events, k, posts[0].id, posts[0].integration.id);
    }
  }

  /** Once an item succeeds, the run neither calls the platform for it again nor fails it again. */
  lemma ConcludedSuccessEndsAttempts(args: WorkflowArgs, posts: seq<PostItem>, outcome: Outcome, events: seq<Event>)
    requires |posts| > 0 && Concluded(args, posts, outcome, events)
    ensures forall j: nat, k :: 0 <= k < |events| && Succeeds(events[k], j) ==>
              Calls(events[k + 1..], j) == 0 && ItemFailures(events[k + 1..], j) == 0
  {
    forall j: nat, k | 0 <= k < |events| && Succeeds(events[k], j)
      ensures Calls(events[k + 1..], j) == 0 && ItemFailures(events[k + 1..], j) == 0
    {
      SuccessFinalAt(events, k, j);
    }
  }

  /** The platform is called for the items in list order. */
  lemma ConcludedCallsInOrder(args: WorkflowArgs, posts: seq<PostItem>, outcome: Outcome, events: seq<Event>)
    requires |posts| > 0 && Concluded(args, posts, outcome, events)
    ensures forall k, k', i: nat, j: nat :: 0 <= k < k' < |events| && CallsFor(events[k], i) && CallsFor(events[k'], j) ==> i <= j
  {
    forall k, k', i: nat, j: nat | 0 <= k < k' < |events| && CallsFor(events[k], i) && CallsFor(events[k'], j)
      ensures i <= j
    {
      CallsInOrderAt(events, k, k', i, j);
    }
  }

  /** A trace without an abort cause has no `bad_body` failure, and a token refresh after each `refresh_token` one. */
  lemma {:induction false} CauseFreeAt(s: seq<Event>, k: nat)
    requires NoAbortCause(s) && k < |s|
    ensures AttemptFailure(s[k]) != Some(BadBody)
    ensures AttemptFailure(s[k]) == Some(RefreshNeeded) ==> k + 1 < |s| && s[k + 1].TokenRefreshed? && Usable(s[k + 1].accessToken)
  {
    if k > 0 {
      CauseFreeAt(s[1..], k - 1);
    }
  }

  /**
   * No slot used more than the retry bound allows and none for a post that does not exist;
   * no comment unless the platform said comments are possible, and no check of that for a
   * post without comments; every call with the token current at that point; an ERROR only
   * right after a failure; and every failure answered at once, a `refresh_token` one by a
   * refresh of the post's integration, any other one by the ERROR of the first post.
   */
  ghost predicate Disciplined(posts: seq<PostItem>, events: seq<Event>)
    requires |posts| > 0
  {
    && (forall j: nat :: Calls(events, j) <= PostPublish.Slots && (j >= |posts| ==> Calls(events, j) == 0))
    && (CommentableChecked(true) !in events ==> NoComments(events))
    && (|posts| == 1 ==> forall k :: 0 <= k < |events| ==> !events[k].CommentableChecked?)
    && TokensCurrent(events, posts[0].integration.token)
    && ErrorsFollowFailures(events)
    && FailuresAnswered(events, posts[0].id, posts[0].integration.id)
  }

  /**
   * The ending the outcome names: the main post is always tried; only a refresh or a bad
   * body aborts, each with its ending; the bad-body notice exactly once when aborting for
   * it; no plug work after an abort or a throw; a throw only when nothing was published,
   * after all five main-post slots; every item the run tries is settled, up to the one that
   * aborts it, after which no item is touched.
   */
  ghost predicate Ended(posts: seq<PostItem>, outcome: Outcome, events: seq<Event>)
    requires |posts| > 0
  {
    && !outcome.Skipped?
    && Calls(events, 0) > 0
    && (outcome.Crashed? ==> Calls(events, 0) == PostPublish.Slots)
    && Reached(posts, outcome, events)
    && (outcome.Aborted? ==> outcome.reason != OtherFailure)
    && (outcome == Aborted(RefreshNeeded) ==> EndsWithRefreshAbort(events, posts[0].id))
    && (outcome == Aborted(BadBody) ==> EndsWithBadBodyAbort(events, posts[0].id, posts[0].organizationId))
    && FailureNotices(events) == (if outcome == Aborted(BadBody) then 1 else 0)
    && (outcome.Aborted? || outcome.Crashed? ==> forall k :: 0 <= k < |events| ==> !PlugWork(events[k]))
    && (outcome.Crashed? ==> Harvest(events) == [])
  }

  /** A run that got past the integration checks has called the platform for its main post, so no empty trace is concluded. */
  lemma ConcludedAfterCall(args: WorkflowArgs, posts: seq<PostItem>, outcome: Outcome, events: seq<Event>)
    requires |posts| > 0 && Concluded(args, posts, outcome, events)
    ensures exists k :: 0 <= k < |events| && CallsFor(events[k], 0)
  {
    PostedWhenCalled(events);
  }

  lemma {:induction false} PostedWhenCalled(s: seq<Event>)
    requires Calls(s, 0) > 0
    ensures exists k :: 0 <= k < |s| && CallsFor(s[k], 0)
  {
    if !CallsFor(s[0], 0) {
      PostedWhenCalled(s[1..]);
      var k :| 0 <= k < |s[1..]| && CallsFor(s[1..][k], 0);
      assert CallsFor(s[k + 1], 0);
    }
  }

  /**
   * How far publishing got: every item the run tries is settled, up to the one that
   * aborts it, after which no item is touched.
   */
  ghost predicate Reached(posts: seq<PostItem>, outcome: Outcome, events: seq<Event>)
  {
    && (!outcome.Aborted? ==> SettledUpTo(posts, events, |posts|))
    && (outcome.Aborted? ==> exists r: nat :: r < |posts| && SettledUpTo(posts, events, r) && UntouchedAfter(events, r))
  }

  /**
   * Every item before `reached` that the run tries ended in a success or used all five
   * slots: the main post, and the comments when the platform said it takes them.
   */
  ghost predicate SettledUpTo(posts: seq<PostItem>, events: seq<Event>, reached: nat)
  {
    forall j :: 0 <= j < reached && j < |posts| && (j == 0 || CommentableChecked(true) in events) ==> PostPublish.Settled(events, j)
  }

  /** No item after `reached` is called, succeeds or fails. */
  ghost predicate UntouchedAfter(events: seq<Event>, reached: nat)
  {
    forall j: nat :: j > reached ==> Calls(events, j) == 0 && Successes(events, j) == 0 && ItemFailures(events, j) == 0
  }

  /** A trace that calls, settles and checks nothing. */
  ghost predicate Quiet(s: seq<Event>)
  {
    && (forall j: nat :: Calls(s, j) == 0 && Successes(s, j) == 0 && ItemFailures(s, j) == 0)
    && CommentableChecked(true) !in s
  }

  /** Quiet events before or after keep the items settled and untouched. */
  lemma SettledFramed(pre: seq<Event>, events: seq<Event>, post: seq<Event>, posts: seq<PostItem>, reached: nat)
    requires Quiet(pre) && Quiet(post)
    ensures SettledUpTo(posts, events, reached) ==> SettledUpTo(posts, pre + events + post, reached)
    ensures UntouchedAfter(events, reached) ==> UntouchedAfter(pre + events + post, reached)
  {
    var whole := pre + events + post;
    OutcomesConcat(pre, events);
    OutcomesConcat(pre + events, post);
    ConcatFacts(pre, events, "");
    ConcatFacts(pre + events, post, "");
    if SettledUpTo(posts, events, reached) {
      forall j | 0 <= j < reached && j < |posts| && (j == 0 || CommentableChecked(true) in whole)
        ensures PostPublish.Settled(whole, j)
      {
        assert PostPublish.Settled(events, j);
      }
    }
  }

  /** Quiet events after keep the items settled. */
  lemma SettledBefore(events: seq<Event>, post: seq<Event>, posts: seq<PostItem>, reached: nat)
    requires Quiet(post)
    ensures SettledUpTo(posts, events, reached) ==> SettledUpTo(posts, events + post, reached)
  {
    assert [] + events + post == events + post;
    SettledFramed([], events, post, posts, reached);
  }

  /** The items PublishAll settles are settled after the comment check too. */
  lemma FrontSettled(checked: seq<Event>, published: seq<Event>, posts: seq<PostItem>, toComment: bool, reached: nat)
    requires checked == [] || checked == [CommentableChecked(toComment)]
    requires checked == [] ==> !toComment
    requires PublishTrace(published)
    requires forall j :: 0 <= j < reached && (j == 0 || toComment) ==> PostPublish.Settled(published, j)
    requires forall j: nat :: j > reached ==> Calls(published, j) == 0 && Successes(published, j) == 0 && ItemFailures(published, j) == 0
    ensures Calls(checked + published, 0) == Calls(published, 0)
    ensures SettledUpTo(posts, checked + published, reached)
    ensures UntouchedAfter(checked + published, reached)
  {
    var front := checked + published;
    OpeningConcat(checked, []);
    if checked != [] {
      assert checked[1..] == [];
    }
    OpeningFacts(checked, "");
    OpeningOutcomes(checked);
    OutcomesConcat(checked, published);
    PublishTraceDoesNoPlugWork(published);
    ConcatFacts(checked, published, "");
    if CommentableChecked(true) in front {
      var k :| 0 <= k < |front| && front[k] == CommentableChecked(true);
      OpeningPosition(checked, published, k);
    }
    forall j | 0 <= j < reached && j < |posts| && (j == 0 || CommentableChecked(true) in front)
      ensures PostPublish.Settled(front, j)
    {
      assert PostPublish.Settled(published, j);
    }
  }

  /**
   * The follow-up work: on completion the webhooks are sent for the first result; the
   * repeat child starts once for a completed recurring post and otherwise never.
   */
  predicate Followed(args: WorkflowArgs, posts: seq<PostItem>, outcome: Outcome, events: seq<Event>)
    requires |posts| > 0
  {
    && (outcome == Completed ==>
          Harvest(events) != [] && WebhooksSent(Harvest(events)[0].postId, posts[0].organizationId, posts[0].integration.id) in events)
    && ChildCount(events) == (if outcome == Completed && posts[0].intervalInDays != 0 then 1 else 0)
    && PlugDrain.Children(events, PlugDrain.RepeatChild(args, posts[0].id))
  }

  /**
   * The run from the comment check on, for a post that passed the gate and the integration
   * checks: publish; an abort ends it; no result at all makes the webhook call throw; else
   * the follow-up work.
   */
  method Publication(history: seq<Event>, args: WorkflowArgs, posts: seq<PostItem>, elapsedMilliseconds: int, env: Env)
    returns (outcome: Outcome, events: seq<Event>)
    requires |posts| > 0
    ensures Concluded(args, posts, outcome, events)
  {
    var toComment := false;
    var checked := [];
    if |posts| != 1 {
      toComment := env.isCommentable(history, posts[0].integration);
      checked := [CommentableChecked(toComment)];
    }
    var published, results, token, abort, reached := PostPublish.PublishAll(history + checked, posts, toComment, env);
    var child := PlugDrain.RepeatChild(args, posts[0].id);
    PublishedFacts(args, checked, published, posts, toComment, results, token, abort, reached);
    events := checked + published;
    if abort.Some? {
      outcome := Aborted(abort.value);
    } else if results == [] {
      // `postsResults[0].postId` throws outside any `try`
      outcome := Crashed;
    } else {
      var follow := Complete(history + events, args, posts, events, results, token, elapsedMilliseconds, env);
      events := events + follow;
      outcome := Completed;
    }
  }

  /** The follow-up work of a publication that produced results, which completes the run. */
  method Complete(history: seq<Event>, args: WorkflowArgs, posts: seq<PostItem>, front: seq<Event>, results: seq<PostResponse>,
                  token: string, elapsedMilliseconds: int, env: Env)
    returns (follow: seq<Event>)
    requires |posts| > 0 && Prelude(args, posts, front, results, token)
    ensures Concluded(args, posts, Completed, front + follow)
  {
    var internal, global, done, satisfied, runs;
    follow, internal, global, done, satisfied, runs := FollowUp(history, args, posts[0], results, token, elapsedMilliseconds, env);
    assert follow[0] == follow[..3][0];
    CompletedFacts(args, front, follow, posts, token, results);
  }

  /**
   * What the events up to the end of publishing guarantee once they are known to lead on
   * to the follow-up work.
   */
  ghost predicate Prelude(args: WorkflowArgs, posts: seq<PostItem>, front: seq<Event>, results: seq<PostResponse>, token: string)
    requires |posts| > 0
  {
    && Disciplined(posts, front)
    && |results| > 0 && Harvest(front) == results
    && Calls(front, 0) > 0 && SettledUpTo(posts, front, |posts|)
    && token == TokenAfter(front, posts[0].integration.token)
    && FailureNotices(front) == 0 && ChildCount(front) == 0
    && PlugDrain.Children(front, PlugDrain.RepeatChild(args, posts[0].id))
    && Closed(front) && Sequenced(Completed, front)
  }

  /** The guarantees of the comment check and the publish loop: an abort or a throw concludes the run. */
  lemma PublishedFacts(args: WorkflowArgs, checked: seq<Event>, published: seq<Event>, posts: seq<PostItem>,
                       toComment: bool, results: seq<PostResponse>, token: string, abort: Option<Failure>, reached: nat)
    requires |posts| > 0
    requires checked == [] || checked == [CommentableChecked(toComment)]
    requires checked == [] <==> |posts| == 1
    requires checked == [] ==> !toComment
    requires results == Harvest(published)
    requires PublishTrace(published)
    requires forall j: nat :: Calls(published, j) <= PostPublish.Slots
    requires forall j: nat :: j >= |posts| ==> Calls(published, j) == 0
    requires !toComment ==> NoComments(published)
    requires TokensCurrent(published, posts[0].integration.token) && token == TokenAfter(published, posts[0].integration.token)
    requires ErrorsFollowFailures(published)
    requires abort.Some? ==> abort.value != OtherFailure
    requires abort == Some(RefreshNeeded) ==> EndsWithRefreshAbort(published, posts[0].id)
    requires abort == Some(BadBody) ==> EndsWithBadBodyAbort(published, posts[0].id, posts[0].organizationId)
    requires FailureNotices(published) == if abort == Some(BadBody) then 1 else 0
    requires abort.None? <==> reached == |posts|
    requires reached <= |posts|
    requires forall j :: 0 <= j < reached && (j == 0 || toComment) ==> PostPublish.Settled(published, j)
    requires forall j: nat :: j > reached ==> Calls(published, j) == 0 && Successes(published, j) == 0 && ItemFailures(published, j) == 0
    requires Calls(published, 0) > 0
    requires abort.None? && results == [] ==> Calls(published, 0) == PostPublish.Slots
    requires (forall j: nat :: Successes(published, j) <= 1) && Closed(published)
    requires abort.None? ==> NoAbortCause(published)
    requires abort.Some? ==> CauseFreeBefore(published)
    requires SuccessFinal(published) && CallsInOrder(published)
    requires FailuresAnswered(published, posts[0].id, posts[0].integration.id)
    ensures abort.Some? ==> Concluded(args, posts, Aborted(abort.value), checked + published)
    ensures abort.None? && results == [] ==> Concluded(args, posts, Crashed, checked + published)
    ensures abort.None? && results != [] ==> Prelude(args, posts, checked + published, results, token)
  {
    FrontFacts(checked, published, posts, toComment, token, PlugDrain.RepeatChild(args, posts[0].id));
    EndingsConcat(checked, published, posts[0].id, posts[0].organizationId);
    FrontSettled(checked, published, posts, toComment, reached);
    FrontStops(checked, published, toComment, abort);
    if abort.Some? {
      assert reached < |posts| && SettledUpTo(posts, checked + published, reached) && UntouchedAfter(checked + published, reached);
    }
  }

  /** The comment check is no cause to abort and no success. */
  lemma FrontStops(checked: seq<Event>, published: seq<Event>, toComment: bool, abort: Option<Failure>)
    requires checked == [] || checked == [CommentableChecked(toComment)]
    requires (forall j: nat :: Successes(published, j) <= 1) && Closed(published)
    requires abort.None? ==> NoAbortCause(published)
    requires abort.Some? ==> CauseFreeBefore(published)
    requires SuccessFinal(published) && CallsInOrder(published)
    ensures Closed(checked + published)
    ensures Sequenced(if abort.Some? then Aborted(abort.value) else Completed, checked + published)
  {
    if checked != [] {
      assert checked[1..] == [];
    }
    OpeningFacts(checked, "");
    OpeningOutcomes(checked);
    NoFailureNoCause(checked);
    OutcomesConcat(checked, published);
    CauseStep(checked, published, abort.Some?);
    NoSuccessFinal(checked);
    NoCallsInOrder(checked);
    SuccessFinalConcat(checked, published);
    CallsInOrderConcat(checked, published);
  }

  /** The guarantees of a completed run, from those of its publication and its follow-up. */
  lemma CompletedFacts(args: WorkflowArgs, front: seq<Event>, follow: seq<Event>, posts: seq<PostItem>, token: string, results: seq<PostResponse>)
    requires |posts| > 0 && Prelude(args, posts, front, results, token)
    requires PlugTrace(follow) && |follow| > 0
    requires follow[0] == WebhooksSent(results[0].postId, posts[0].organizationId, posts[0].integration.id)
    requires ChildCount(follow) == if posts[0].intervalInDays != 0 then 1 else 0
    requires PlugDrain.Children(follow, PlugDrain.RepeatChild(args, posts[0].id))
    ensures Concluded(args, posts, Completed, front + follow)
  {
    CompletedDiscipline(front, follow, posts, token);
    CompletedEnding(args, front, follow, posts, token, results);
    CompletedStops(front, follow, token);
    CompletedFollowUp(args, front, follow, posts, token, results);
  }

  lemma CompletedEnding(args: WorkflowArgs, front: seq<Event>, follow: seq<Event>, posts: seq<PostItem>, token: string, results: seq<PostResponse>)
    requires |posts| > 0 && Prelude(args, posts, front, results, token)
    requires PlugTrace(follow)
    ensures Ended(posts, Completed, front + follow)
  {
    PlugTraceFacts(follow, token);
    PlugOutcomes(follow);
    PlugTraceEvents(follow);
    ConcatFacts(front, follow, token);
    SettledBefore(front, follow, posts, |posts|);
  }

  lemma CompletedStops(front: seq<Event>, follow: seq<Event>, token: string)
    requires Closed(front) && Sequenced(Completed, front)
    requires PlugTrace(follow)
    ensures Sequenced(Completed, front + follow)
  {
    PlugTraceFacts(follow, token);
    PlugOutcomes(follow);
    NoFailureNoCause(follow);
    NoAbortCauseConcat(front, follow);
    OutcomesConcat(front, follow);
    NoSuccessFinal(follow);
    NoCallsInOrder(follow);
    SuccessFinalConcat(front, follow);
    CallsInOrderConcat(front, follow);
  }

  lemma CompletedDiscipline(front: seq<Event>, follow: seq<Event>, posts: seq<PostItem>, token: string)
    requires |posts| > 0 && Disciplined(posts, front) && token == TokenAfter(front, posts[0].integration.token)
    requires PlugTrace(follow)
    ensures Disciplined(posts, front + follow)
  {
    var events := front + follow;
    PlugTraceFacts(follow, token);
    PlugTraceEvents(follow);
    ConcatFacts(front, follow, posts[0].integration.token);
    ErrorsFollowFailuresConcat(front, follow);
    NoFailureAnswered(follow, posts[0].id, posts[0].integration.id);
    FailuresAnsweredConcat(front, follow, posts[0].id, posts[0].integration.id);
    if CommentableChecked(true) !in events {
      assert CommentableChecked(true) !in front;
    }
    if |posts| == 1 {
      forall k | 0 <= k < |events| ensures !events[k].CommentableChecked? {
        OpeningPosition(front, follow, k);
      }
    }
  }

  lemma CompletedFollowUp(args: WorkflowArgs, front: seq<Event>, follow: seq<Event>, posts: seq<PostItem>, token: string, results: seq<PostResponse>)
    requires |posts| > 0 && Prelude(args, posts, front, results, token)
    requires PlugTrace(follow) && |follow| > 0
    requires follow[0] == WebhooksSent(results[0].postId, posts[0].organizationId, posts[0].integration.id)
    requires ChildCount(follow) == if posts[0].intervalInDays != 0 then 1 else 0
    requires PlugDrain.Children(follow, PlugDrain.RepeatChild(args, posts[0].id))
    ensures Followed(args, posts, Completed, front + follow)
  {
    var events := front + follow;
    PlugTraceFacts(follow, token);
    ConcatFacts(front, follow, token);
    PlugConcatFacts(front, follow);
    PlugDrain.ChildrenConcat(front, follow, PlugDrain.RepeatChild(args, posts[0].id));
    assert events[|front|] == follow[0];
  }

  /**
   * `postWorkflowV101`: load the post and its comments; stop unless the post exists and is
   * still queued (or the run publishes now); wait for the publication time; stop with an
   * info notice when the integration needs reconnecting or is disabled; otherwise publish
   * and do the follow-up work. `msUntilPublish` is the publication date minus the time the
   * wait starts, `elapsedMilliseconds` the time from the start of the run to the building
   * of the plug queue.
   */
  method PostWorkflowV101(args: WorkflowArgs, msUntilPublish: int, elapsedMilliseconds: int, env: Env)
    returns (outcome: Outcome, trace: seq<Event>)
    ensures var posts := Posts(args, env);
      outcome.Skipped? <==> !Admitted(args, posts) || posts[0].integration.refreshNeeded || posts[0].integration.disabled
    ensures !Admitted(args, Posts(args, env)) ==> trace == [PostsLoaded(args.organizationId, args.postId)]
    ensures var posts := Posts(args, env);
      Admitted(args, posts) && (posts[0].integration.refreshNeeded || posts[0].integration.disabled) ==>
        trace == [PostsLoaded(args.organizationId, args.postId)] + Wait(args.postNow, msUntilPublish)
                 + [Notified(posts[0].organizationId, InfoNotice)]
    ensures var posts := Posts(args, env); var opening := [PostsLoaded(args.organizationId, args.postId)] + Wait(args.postNow, msUntilPublish);
      !outcome.Skipped? ==> |posts| > 0 && |opening| <= |trace| && trace[..|opening|] == opening && Concluded(args, posts, outcome, trace)
  {
    var posts := Posts(args, env);
    trace := [PostsLoaded(args.organizationId, args.postId)];
    if !Admitted(args, posts) {
      return Skipped, trace;
    }
    trace := trace + Wait(args.postNow, msUntilPublish);
    var post := posts[0];
    if post.integration.refreshNeeded || post.integration.disabled {
      return Skipped, trace + [Notified(post.organizationId, InfoNotice)];
    }
    var events;
    outcome, events := Publication(trace, args, posts, elapsedMilliseconds, env);
    OpeningOf(args, msUntilPublish, []);
    OpenedFacts(trace, events, args, posts, outcome);
    trace := trace + events;
  }

  /** The guarantees of a run survive the events before the comment check. */
  lemma OpenedFacts(opening: seq<Event>, events: seq<Event>, args: WorkflowArgs, posts: seq<PostItem>, outcome: Outcome)
    requires |posts| > 0
    requires OpeningTrace(opening) && forall k :: 0 <= k < |opening| ==> !opening[k].CommentableChecked?
    requires Concluded(args, posts, outcome, events)
    ensures (opening + events)[..|opening|] == opening
    ensures Concluded(args, posts, outcome, opening + events)
  {
    assert (opening + events)[..|opening|] == opening;
    OpenedDiscipline(opening, events, posts);
    OpenedEnding(opening, events, posts, outcome);
    OpenedStops(opening, events, outcome);
    OpenedFollowUp(opening, events, args, posts, outcome);
  }

  lemma OpenedDiscipline(opening: seq<Event>, events: seq<Event>, posts: seq<PostItem>)
    requires |posts| > 0
    requires OpeningTrace(opening) && forall k :: 0 <= k < |opening| ==> !opening[k].CommentableChecked?
    requires Disciplined(posts, events)
    ensures Disciplined(posts, opening + events)
  {
    var whole := opening + events;
    var token := posts[0].integration.token;
    OpeningFacts(opening, token);
    OpeningIsQuiet(opening);
    ConcatFacts(opening, events, token);
    ErrorsFollowFailuresConcat(opening, events);
    NoFailureAnswered(opening, posts[0].id, posts[0].integration.id);
    FailuresAnsweredConcat(opening, events, posts[0].id, posts[0].integration.id);
    if CommentableChecked(true) !in whole {
      assert CommentableChecked(true) !in events;
    }
    if |posts| == 1 {
      forall k | 0 <= k < |whole| ensures !whole[k].CommentableChecked? {
        OpeningPosition(opening, events, k);
      }
    }
  }

  lemma OpenedReach(opening: seq<Event>, events: seq<Event>, posts: seq<PostItem>, outcome: Outcome)
    requires OpeningTrace(opening) && forall k :: 0 <= k < |opening| ==> !opening[k].CommentableChecked?
    requires Reached(posts, outcome, events)
    ensures Reached(posts, outcome, opening + events)
  {
    OpeningFacts(opening, "");
    OpeningOutcomes(opening);
    assert opening + events + [] == opening + events;
    PlugTraceFacts([], "");
    PlugOutcomes([]);
    if outcome.Aborted? {
      var r: nat :| r < |posts| && SettledUpTo(posts, events, r) && UntouchedAfter(events, r);
      SettledFramed(opening, events, [], posts, r);
    } else {
      SettledFramed(opening, events, [], posts, |posts|);
    }
  }

  lemma OpenedEnding(opening: seq<Event>, events: seq<Event>, posts: seq<PostItem>, outcome: Outcome)
    requires |posts| > 0
    requires OpeningTrace(opening) && forall k :: 0 <= k < |opening| ==> !opening[k].CommentableChecked?
    requires Ended(posts, outcome, events)
    ensures Ended(posts, outcome, opening + events)
  {
    var whole := opening + events;
    OpeningFacts(opening, "");
    ConcatFacts(opening, events, "");
    EndingsConcat(opening, events, posts[0].id, posts[0].organizationId);
    OpenedReach(opening, events, posts, outcome);
    if outcome.Aborted? || outcome.Crashed? {
      OpeningIsQuiet(opening);
      forall k | 0 <= k < |whole| ensures !PlugWork(whole[k]) {
        OpeningPosition(opening, events, k);
      }
    }
  }

  lemma OpenedStops(opening: seq<Event>, events: seq<Event>, outcome: Outcome)
    requires OpeningTrace(opening)
    requires Sequenced(outcome, events)
    ensures Sequenced(outcome, opening + events)
  {
    OpeningFacts(opening, "");
    OpeningOutcomes(opening);
    NoFailureNoCause(opening);
    OutcomesConcat(opening, events);
    NoSuccessFinal(opening);
    NoCallsInOrder(opening);
    SuccessFinalConcat(opening, events);
    CallsInOrderConcat(opening, events);
    if outcome.Aborted? {
      AbortPrefixConcat(opening, events);
    } else {
      NoAbortCauseConcat(opening, events);
    }
  }

  lemma OpenedFollowUp(opening: seq<Event>, events: seq<Event>, args: WorkflowArgs, posts: seq<PostItem>, outcome: Outcome)
    requires |posts| > 0
    requires OpeningTrace(opening)
    requires Followed(args, posts, outcome, events)
    ensures Followed(args, posts, outcome, opening + events)
  {
    var child := PlugDrain.RepeatChild(args, posts[0].id);
    OpeningFacts(opening, "");
    OpeningIsQuiet(opening);
    NoChildren(opening, child);
    ConcatFacts(opening, events, "");
    PlugConcatFacts(opening, events);
    PlugDrain.ChildrenConcat(opening, events, child);
    if outcome == Completed {
      var w := WebhooksSent(Harvest(events)[0].postId, posts[0].organizationId, posts[0].integration.id);
      assert w in events;
      assert w in opening + events;
    }
  }

  /** Where an event of a trace comes from, its opening or the rest. */
  lemma OpeningPosition(opening: seq<Event>, events: seq<Event>, k: int)
    requires 0 <= k < |opening + events|
    ensures k < |opening| ==> (opening + events)[k] == opening[k]
    ensures k >= |opening| ==> (opening + events)[k] == events[k - |opening|]
  {
  }
}
