/**
 * The publish loop of `postWorkflowV101`: the main post, then each comment, each with five
 * attempt slots, and the handling of the three kinds of failure.
 */
module PostPublish {
  import opened Wrappers
  import opened PostTrace

  /** The number of slots in `iterate`: the first try, the try after a refresh, three retries. */
  const Slots := 5

  const MinuteMilliseconds := 60000

  /**
   * The first half of an attempt at item `i`: `postSocial` for the main post, or the
   * comment call of `CallComment`.
   */
  method CallPlatform(history: seq<Event>, i: nat, posts: seq<PostItem>, integration: Integration, results0: seq<PostResponse>, env: Env)
    returns (events: seq<Event>, results: seq<PostResponse>, failure: Option<Failure>)
    requires i < |posts|
    ensures results == results0 + Harvest(events)
    ensures AttemptTrace(events, i, posts[i].id, integration.token)
    ensures Calls(events, i) <= 1
    ensures Failures(events) == if failure.Some? then 1 else 0
    ensures failure.Some? ==> |events| > 0 && AttemptFailure(events[|events| - 1]) == failure
    ensures i == 0 ==> events == [Posted(integration.token, env.postSocial(history, integration, posts[0]))]
    ensures i == 0 ==> Calls(events, 0) == 1
    ensures Successes(events, i) == 0
  {
    if i == 0 {
      var reply := env.postSocial(history, integration, posts[0]);
      events := [Posted(integration.token, reply)];
      OneEvent(events[0], i, posts[i].id, integration.token);
      failure := if reply.Fail? then Some(reply.failure) else None;
      results := if reply.Ok? then results0 + reply.value else results0;
    } else {
      events, results, failure := CallComment(history, i, posts, integration, results0, env);
    }
  }

  /**
   * The comment branch of an attempt: the optional sleep of `delay` minutes, then
   * `postComment` threaded under the first result and, unless there is only one result,
   * under the previous one. Reading a missing result raises a `TypeError` instead.
   */
  method CallComment(history: seq<Event>, i: nat, posts: seq<PostItem>, integration: Integration, results0: seq<PostResponse>, env: Env)
    returns (events: seq<Event>, results: seq<PostResponse>, failure: Option<Failure>)
    requires 0 < i < |posts|
    ensures results == results0 + Harvest(events)
    ensures AttemptTrace(events, i, posts[i].id, integration.token)
    ensures Calls(events, i) <= 1
    ensures Failures(events) == if failure.Some? then 1 else 0
    ensures |events| > 0 && AttemptFailure(events[|events| - 1]) == failure
    ensures events[..|events| - 1] == if posts[i].delay != 0 then [Slept(MinuteMilliseconds * posts[i].delay)] else []
    ensures events[|events| - 1].TypeErrorRaised? || events[|events| - 1].Commented?
    ensures events[|events| - 1].TypeErrorRaised? <==> |results0| == 0 || (|results0| != 1 && |results0| < i)
    ensures Successes(events, i) == 0
    ensures events[|events| - 1].Commented? ==>
      && |results0| > 0 && events[|events| - 1].anchor == results0[0].postId
      && events[|events| - 1].parent == if |results0| == 1 then None else Some(results0[i - 1].postId)
  {
    var waited := if posts[i].delay != 0 then [Slept(MinuteMilliseconds * posts[i].delay)] else [];
    var last;
    // `postsResults[0].postId`, then `postsResults[i - 1].postId` unless there is one result
    if |results0| == 0 || (|results0| != 1 && |results0| < i) {
      last := TypeErrorRaised(i);
      failure := Some(OtherFailure);
      results := results0;
    } else {
      var parent := if |results0| == 1 then None else Some(results0[i - 1].postId);
      var reply := env.postComment(history + waited, results0[0].postId, parent, integration, posts[i]);
      last := Commented(i, results0[0].postId, parent, integration.token, reply);
      failure := if reply.Fail? then Some(reply.failure) else None;
      results := if reply.Ok? then results0 + reply.value else results0;
    }
    CommentTrace(waited, last, i, posts[i].id, integration.token);
    events := waited + [last];
  }

  /** The trace of a comment attempt: an optional sleep, then the call or the `TypeError`. */
  lemma CommentTrace(waited: seq<Event>, last: Event, i: nat, itemId: string, token: string)
    requires waited == [] || (|waited| == 1 && waited[0].Slept?)
    requires last.TypeErrorRaised? || last.Commented?
    requires last.TypeErrorRaised? ==> last.index == i
    requires last.Commented? ==> i > 0 && last.index == i && last.token == token
    ensures Harvest(waited + [last]) == Returned(last)
    ensures AttemptTrace(waited + [last], i, itemId, token)
    ensures Calls(waited + [last], i) <= 1
    ensures Failures(waited + [last]) == if AttemptFailure(last).Some? then 1 else 0
    ensures (waited + [last])[..|waited|] == waited
    ensures Successes(waited + [last], i) == 0
  {
    OneEvent(last, i, itemId, token);
    OutcomesConcat(waited, [last]);
    if waited != [] {
      OneEvent(waited[0], i, itemId, token);
      assert waited == [waited[0]];
    }
    ConcatFacts(waited, [last], token);
    ItemConcat(waited, [last], i, itemId, token);
  }

  /**
   * The second half of a successful call: `updatePost` with the `i`-th result, and for the
   * main post the success notification. A missing `i`-th result raises a `TypeError`.
   */
  method MarkPublished(history: seq<Event>, i: nat, posts: seq<PostItem>, integration: Integration, results: seq<PostResponse>, env: Env)
    returns (events: seq<Event>, failure: Option<Failure>)
    requires i < |posts|
    ensures AttemptTrace(events, i, posts[i].id, integration.token)
    ensures Harvest(events) == [] && Calls(events, i) == 0
    ensures Failures(events) == if failure.Some? then 1 else 0
    ensures failure.Some? ==> |events| > 0 && AttemptFailure(events[|events| - 1]) == failure
    ensures Successes(events, i) == if failure.None? then 1 else 0
    ensures |results| <= i ==> events == [TypeErrorRaised(i)]
    ensures failure.None? && i > 0 ==>
      && |results| > i
      && events == [Updated(i, posts[i].id, results[i].postId, results[i].releaseURL, Ok(()))]
    ensures failure.None? && i == 0 ==>
      && |results| > 0
      && events == [Updated(0, posts[0].id, results[0].postId, results[0].releaseURL, Ok(())),
                    SuccessNotified(integration.organizationId, results[0].releaseURL, Ok(()))]
  {
    // `postsResults[i]`, which is missing when fewer results than items have come back
    if |results| <= i {
      events := [TypeErrorRaised(i)];
      OneEvent(events[0], i, posts[i].id, integration.token);
      failure := Some(OtherFailure);
      return;
    }
    var ack := env.updatePost(history, posts[i].id, results[i].postId, results[i].releaseURL);
    var marked := Updated(i, posts[i].id, results[i].postId, results[i].releaseURL, ack);
    OneEvent(marked, i, posts[i].id, integration.token);
    events := [marked];
    if ack.Fail? {
      failure := Some(ack.failure);
      return;
    }
    var acknowledged: () := ack.value;
    assert acknowledged == ();
    failure := None;
    if i == 0 {
      var sent := env.notifyPublished(history + events, integration.organizationId, results[0].releaseURL);
      var notice := SuccessNotified(integration.organizationId, results[0].releaseURL, sent);
      OneEvent(notice, i, posts[i].id, integration.token);
      ConcatFacts(events, [notice], integration.token);
      ItemConcat(events, [notice], i, posts[i].id, integration.token);
      OutcomesConcat(events, [notice]);
      events := events + [notice];
      if sent.Fail? {
        failure := Some(sent.failure);
      } else {
        var notified: () := sent.value;
        assert notified == ();
      }
    }
  }

  /**
   * One pass through the `try` body for item `i`, using `integration` (whose token is the
   * current one) and the results collected so far. The outcome is either success or the
   * failure that the last event carries: an activity's tag, or `OtherFailure` for a
   * `TypeError`.
   */
  method TryPublish(history: seq<Event>, i: nat, posts: seq<PostItem>, integration: Integration, results0: seq<PostResponse>, env: Env)
    returns (events: seq<Event>, results: seq<PostResponse>, failure: Option<Failure>)
    requires i < |posts|
    ensures results == results0 + Harvest(events)
    ensures AttemptTrace(events, i, posts[i].id, integration.token)
    ensures Calls(events, i) <= 1
    ensures Failures(events) == if failure.Some? then 1 else 0
    ensures failure.Some? ==> |events| > 0 && AttemptFailure(events[|events| - 1]) == failure
    ensures failure.None? ==> EndsPublished(events, i, posts[i], integration.organizationId, results)
    ensures i == 0 ==> Calls(events, 0) == 1
    ensures Successes(events, i) == if failure.None? then 1 else 0
  {
    var called;
    called, results, failure := CallPlatform(history, i, posts, integration, results0, env);
    events := called;
    if failure.Some? {
      return;
    }
    var marked;
    marked, failure := MarkPublished(history + called, i, posts, integration, results, env);
    ConcatFacts(called, marked, integration.token);
    ItemConcat(called, marked, i, posts[i].id, integration.token);
    OutcomesConcat(called, marked);
    events := called + marked;
    if failure.None? {
      assert events[|events| - 1] == marked[|marked| - 1];
      assert i == 0 ==> events[|events| - 2] == marked[0];
      assert EndsPublished(events, i, posts[i], integration.organizationId, results);
    }
  }

  /**
   * The ending of a successful attempt at item `i`: the item marked as published with the
   * `i`-th result, then, for the main post, the success notification.
   */
  predicate EndsPublished(s: seq<Event>, i: nat, item: PostItem, organizationId: string, results: seq<PostResponse>)
  {
    if i == 0 then
      && |results| > 0 && |s| > 1
      && s[|s| - 2] == Updated(0, item.id, results[0].postId, results[0].releaseURL, Ok(()))
      && s[|s| - 1] == SuccessNotified(organizationId, results[0].releaseURL, Ok(()))
    else
      && |results| > i && |s| > 0
      && s[|s| - 1] == Updated(i, item.id, results[i].postId, results[i].releaseURL, Ok(()))
  }

  /** The facts about a trace of one or two events of failure handling. */
  lemma HandlingTrace(s: seq<Event>, token: string)
    requires 1 <= |s| <= 2
    requires forall k :: 0 <= k < |s| ==> PublishEvent(s[k]) && !AttemptEvent(s[k])
    ensures Harvest(s) == [] && Failures(s) == 0 && forall j: nat :: Calls(s, j) == 0
    ensures forall i: nat, itemId :: ItemTrace(s, i, itemId)
    ensures TokensCurrent(s, token)
    ensures TokenAfter(s, token) == if |s| == 1 then NextToken(s[0], token) else NextToken(s[1], NextToken(s[0], token))
    ensures FailureNotices(s) == FailureNotices([s[0]]) + if |s| == 1 then 0 else FailureNotices([s[1]])
    ensures forall j: nat :: Successes(s, j) == 0
  {
    assert s == [s[0]] + s[1..];
    ConcatFacts([s[0]], s[1..], token);
    OutcomesConcat([s[0]], s[1..]);
    forall j: nat ensures Successes(s, j) == 0 {
      OneEvent(s[0], j, "", token);
      if |s| == 2 {
        OneEvent(s[1], j, "", token);
      }
    }
    OneEvent(s[0], 0, "", token);
    if |s| == 2 {
      assert s[1..] == [s[1]];
      OneEvent(s[1], 0, "", NextToken(s[0], token));
    }
    forall i: nat, itemId ensures ItemTrace(s, i, itemId) {
      ItemConcat([s[0]], s[1..], i, itemId, token);
      OneEvent(s[0], i, itemId, token);
      if |s| == 2 {
        OneEvent(s[1], i, itemId, token);
      }
    }
  }

  /**
   * What the `catch` block does after a failed attempt, given the current token: the events
   * it adds, the token afterwards, and whether the run aborts.
   */
  method HandleFailure(history: seq<Event>, posts: seq<PostItem>, integration: Integration, token: string,
                       failure: Failure, env: Env)
    returns (events: seq<Event>, tokenAfter: string, abort: Option<Failure>)
    requires |posts| > 0
    ensures Harvest(events) == [] && Failures(events) == 0 && forall j: nat :: Calls(events, j) == 0
    ensures forall j: nat :: Successes(events, j) == 0
    ensures forall i: nat, itemId :: ItemTrace(events, i, itemId)
    ensures TokensCurrent(events, token) && tokenAfter == TokenAfter(events, token)
    ensures FailureNotices(events) == if abort == Some(BadBody) then 1 else 0
    ensures failure == RefreshNeeded && abort.None? ==>
      events == [TokenRefreshed(integration.id, Some(tokenAfter))] && tokenAfter != ""
    ensures failure == RefreshNeeded && abort.Some? ==>
      && abort == Some(RefreshNeeded) && |events| == 2
      && events[0].TokenRefreshed? && !Usable(events[0].accessToken)
      && events[1] == StateChanged(posts[0].id, RefreshNeeded)
    ensures failure == BadBody ==>
      && abort == Some(BadBody)
      && events == [StateChanged(posts[0].id, BadBody), Notified(posts[0].organizationId, FailureNotice)]
    ensures failure == OtherFailure ==> abort.None? && events == [StateChanged(posts[0].id, OtherFailure)]
    ensures |events| > 0 && Answers(events[0], failure, posts[0].id, integration.id)
  {
    if failure == RefreshNeeded {
      var refreshed := env.refreshToken(history, integration.(token := token));
      if !Usable(refreshed) {
        events := [TokenRefreshed(integration.id, refreshed), StateChanged(posts[0].id, RefreshNeeded)];
        tokenAfter := token;
        abort := Some(RefreshNeeded);
      } else {
        events := [TokenRefreshed(integration.id, refreshed)];
        tokenAfter := refreshed.value;
        abort := None;
      }
    } else if failure == BadBody {
      events := [StateChanged(posts[0].id, BadBody), Notified(posts[0].organizationId, FailureNotice)];
      tokenAfter := token;
      abort := Some(BadBody);
    } else {
      events := [StateChanged(posts[0].id, failure)];
      tokenAfter := token;
      abort := None;
    }
    HandlingTrace(events, token);
    OneEvent(events[0], 0, "", token);
    if |events| == 2 {
      OneEvent(events[1], 0, "", token);
    }
  }

  /** The handling of a failure directly after the attempt that failed keeps ERRORs behind their causes. */
  lemma HandledAfterFailure(tried: seq<Event>, handled: seq<Event>, failure: Failure, firstItemId: string, organizationId: string)
    requires ErrorsFollowFailures(tried) && |tried| > 0 && AttemptFailure(tried[|tried| - 1]) == Some(failure)
    requires
      || (failure == RefreshNeeded && |handled| == 1 && handled[0].TokenRefreshed?)
      || (failure == RefreshNeeded && |handled| == 2 && handled[0].TokenRefreshed? && !Usable(handled[0].accessToken)
          && handled[1] == StateChanged(firstItemId, RefreshNeeded))
      || (failure == BadBody && handled == [StateChanged(firstItemId, BadBody), Notified(organizationId, FailureNotice)])
      || (failure == OtherFailure && handled == [StateChanged(firstItemId, OtherFailure)])
    ensures ErrorsFollowFailures(tried + handled)
    ensures failure == RefreshNeeded && |handled| == 2 ==> EndsWithRefreshAbort(tried + handled, firstItemId)
    ensures failure == BadBody ==> EndsWithBadBodyAbort(tried + handled, firstItemId, organizationId)
  {
    var s := tried + handled;
    assert s[|tried| - 1] == tried[|tried| - 1];
    forall k | 0 < k < |s| && s[k].StateChanged? ensures CausedBy(s[k - 1], s[k].cause) {
      if k < |tried| {
        assert s[k] == tried[k] && s[k - 1] == tried[k - 1];
      } else if k == |tried| + 1 {
        assert s[k - 1] == handled[0];
      }
    }
  }

  /**
   * A failed attempt and the handling of its failure hold an abort cause exactly when the
   * handling aborts, and then only in the three-event ending.
   */
  lemma HandledCause(pre: seq<Event>, last: Event, handled: seq<Event>, failure: Failure, abort: Option<Failure>)
    requires Failures(pre) == 0 && AttemptFailure(last) == Some(failure)
    requires Failures(handled) == 0 && 1 <= |handled| <= 2
    requires failure == RefreshNeeded && abort.None? ==> handled[0].TokenRefreshed? && Usable(handled[0].accessToken)
    requires failure == BadBody ==> abort.Some?
    requires abort.Some? ==> |handled| == 2
    ensures Closed(pre + [last] + handled)
    ensures abort.None? ==> NoAbortCause(pre + [last] + handled)
    ensures abort.Some? ==> CauseFreeBefore(pre + [last] + handled)
  {
    NoFailureNoCause(pre);
    NoFailureNoCause(handled);
    var tail := [last] + handled;
    assert tail[1..] == handled && tail[1] == handled[0];
    assert tail[|tail| - 1] == handled[|handled| - 1];
    assert pre + [last] + handled == pre + tail;
    NoAbortCauseConcat(pre, tail);
    if abort.Some? {
      assert (pre + tail)[..|pre + tail| - 3] == pre;
    }
  }

  /** One slot of `iterate`: an attempt and, when it fails, the handling of its failure. */
  method AttemptSlot(history: seq<Event>, i: nat, posts: seq<PostItem>, integration: Integration, token: string,
                     results0: seq<PostResponse>, env: Env)
    returns (events: seq<Event>, results: seq<PostResponse>, tokenAfter: string, published: bool, abort: Option<Failure>)
    requires i < |posts|
    ensures results == results0 + Harvest(events)
    ensures ItemTrace(events, i, posts[i].id)
    ensures Calls(events, i) <= 1
    ensures Failures(events) == if published then 0 else 1
    ensures TokensCurrent(events, token) && tokenAfter == TokenAfter(events, token)
    ensures ErrorsFollowFailures(events)
    ensures abort.Some? ==> !published && abort.value != OtherFailure
    ensures abort == Some(RefreshNeeded) ==> EndsWithRefreshAbort(events, posts[0].id)
    ensures abort == Some(BadBody) ==> EndsWithBadBodyAbort(events, posts[0].id, posts[0].organizationId)
    ensures FailureNotices(events) == if abort == Some(BadBody) then 1 else 0
    ensures published ==> EndsPublished(events, i, posts[i], integration.organizationId, results)
    ensures i == 0 ==> Calls(events, 0) == 1
    ensures Successes(events, i) == if published then 1 else 0
    ensures Closed(events)
    ensures abort.None? ==> NoAbortCause(events)
    ensures abort.Some? ==> CauseFreeBefore(events)
    ensures FailuresAnswered(events, posts[0].id, integration.id)
  {
    var attempt, failure;
    attempt, results, failure := TryPublish(history, i, posts, integration.(token := token), results0, env);
    AttemptTraceFacts(attempt, i, posts[i].id, token);
    tokenAfter := token;
    published := failure.None?;
    abort := None;
    events := attempt;
    if failure.None? {
      NoFailureNoCause(attempt);
      NoFailureAnswered(attempt, posts[0].id, integration.id);
      return;
    }
    var handled;
    handled, tokenAfter, abort := HandleFailure(history + attempt, posts, integration, token, failure.value, env);
    HandledAfterFailure(attempt, handled, failure.value, posts[0].id, posts[0].organizationId);
    ConcatFacts(attempt, handled, token);
    ItemConcat(attempt, handled, i, posts[i].id, token);
    OutcomesConcat(attempt, handled);
    FailedAttempt(attempt, handled, failure.value, abort, i, posts[i].id, token);
    AnsweredAttempt(attempt, handled, failure.value, posts[0].id, integration.id);
    events := attempt + handled;
  }

  /** A failed attempt whose handling starts with the answer to its failure leaves no failure unanswered. */
  lemma AnsweredAttempt(attempt: seq<Event>, handled: seq<Event>, failure: Failure, firstItemId: string, integrationId: string)
    requires Failures(attempt) == 1 && |attempt| > 0 && AttemptFailure(attempt[|attempt| - 1]) == Some(failure)
    requires Failures(handled) == 0 && |handled| > 0 && Answers(handled[0], failure, firstItemId, integrationId)
    ensures FailuresAnswered(attempt + handled, firstItemId, integrationId)
  {
    var n := |attempt| - 1;
    var pre, last := attempt[..n], attempt[n];
    assert attempt == pre + [last];
    FailuresSnoc(pre, last);
    NoFailureAnswered(pre, firstItemId, integrationId);
    AnsweredFailure(last, handled, failure, firstItemId, integrationId);
    FailuresAnsweredConcat(pre, [last] + handled, firstItemId, integrationId);
    assert attempt + handled == pre + ([last] + handled);
  }

  /** A failure followed by its answer and then by no other failure. */
  lemma AnsweredFailure(last: Event, handled: seq<Event>, failure: Failure, firstItemId: string, integrationId: string)
    requires AttemptFailure(last) == Some(failure)
    requires Failures(handled) == 0 && |handled| > 0 && Answers(handled[0], failure, firstItemId, integrationId)
    ensures FailuresAnswered([last] + handled, firstItemId, integrationId)
  {
    NoFailureAnswered(handled, firstItemId, integrationId);
    assert ([last] + handled)[1..] == handled;
  }

  /** The abort causes of a failed attempt and its handling, from those of its failing last event. */
  lemma FailedAttempt(attempt: seq<Event>, handled: seq<Event>, failure: Failure, abort: Option<Failure>, i: nat, itemId: string,
                      token: string)
    requires Failures(attempt) == 1 && |attempt| > 0 && AttemptFailure(attempt[|attempt| - 1]) == Some(failure)
    requires Failures(handled) == 0 && handled != []
    requires failure == RefreshNeeded && abort.None? ==> handled[0].TokenRefreshed? && Usable(handled[0].accessToken)
    requires failure == RefreshNeeded && abort.Some? ==> |handled| == 2
    requires failure == BadBody ==> abort.Some? && |handled| == 2
    requires failure == OtherFailure ==> abort.None? && |handled| == 1
    requires failure == RefreshNeeded && abort.None? ==> |handled| == 1
    ensures Closed(attempt + handled)
    ensures abort.None? ==> NoAbortCause(attempt + handled)
    ensures abort.Some? ==> CauseFreeBefore(attempt + handled)
  {
    var n := |attempt| - 1;
    var pre, last := attempt[..n], attempt[n];
    assert attempt == pre + [last];
    ConcatFacts(pre, [last], token);
    OneEvent(last, i, itemId, token);
    HandledCause(pre, last, handled, failure, abort);
  }

  /** Item `j`'s attempts ended in a success, or all five slots failed. */
  predicate Settled(s: seq<Event>, j: nat)
  {
    Successes(s, j) > 0 || ItemFailures(s, j) == Slots
  }

  /** A successful attempt ends with a success event. */
  lemma PublishedSucceeds(s: seq<Event>, i: nat, item: PostItem, organizationId: string, results: seq<PostResponse>)
    requires EndsPublished(s, i, item, organizationId, results)
    ensures Successes(s, i) > 0
  {
    SuccessAtEnd(s, i);
  }

  /**
   * The per-item outcomes after the slots of item `i`, which settle it when `settles`:
   * the earlier items keep theirs and the later ones stay untouched.
   */
  lemma OutcomesStep(events: seq<Event>, more: seq<Event>, i: nat, itemId: string, settles: bool)
    requires ItemTrace(more, i, itemId)
    requires forall j: nat :: j >= i ==> Successes(events, j) == 0 && ItemFailures(events, j) == 0
    requires settles ==> Successes(more, i) > 0 || Failures(more) == Slots
    requires (forall j: nat :: Successes(events, j) <= 1) && Successes(more, i) <= 1
    ensures forall j: nat :: j != i && Settled(events, j) ==> Settled(events + more, j)
    ensures forall j: nat :: Successes(events + more, j) <= 1
    ensures forall j: nat :: j > i ==> Successes(events + more, j) == 0 && ItemFailures(events + more, j) == 0
    ensures settles ==> Settled(events + more, i)
  {
    OutcomesConcat(events, more);
    ItemOutcomes(more, i, itemId);
  }

  /**
   * The main post's calls after item `i`: there is one, and with no result and no abort
   * all five slots were used.
   */
  lemma MainPostStep(events: seq<Event>, more: seq<Event>, i: nat, item: PostItem, organizationId: string,
                     results: seq<PostResponse>, collected: seq<PostResponse>, published: bool, stop: Option<Failure>)
    requires i > 0 ==> Calls(events, 0) > 0 && (results == [] ==> Calls(events, 0) == Slots)
    requires i == 0 ==> Calls(events, 0) == 0
    requires results == Harvest(events) && collected == results + Harvest(more)
    requires ItemTrace(more, i, item.id)
    requires published ==> EndsPublished(more, i, item, organizationId, collected)
    requires i == 0 ==> Calls(more, 0) > 0
    requires i == 0 && !published && stop.None? ==> Calls(more, 0) == Slots
    ensures Calls(events + more, 0) > 0
    ensures collected == [] && stop.None? ==> Calls(events + more, 0) == Slots
  {
    CountsConcat(events, more);
    ItemTraceFacts(more, i, item.id);
    if collected == [] {
      assert |results| == 0;
      assert !published;
    }
  }

  /**
   * The items before `i` followed by item `i`: a success of an earlier item stays final,
   * since item `i` touches only itself, and the calls stay in list order.
   */
  lemma OrderStep(events: seq<Event>, more: seq<Event>, i: nat, itemId: string)
    requires ItemTrace(more, i, itemId) && SuccessFinal(more)
    requires forall j: nat :: j >= i ==> Calls(events, j) == 0 && Successes(events, j) == 0
    requires SuccessFinal(events) && CallsInOrder(events)
    ensures SuccessFinal(events + more) && CallsInOrder(events + more)
  {
    ItemTraceFacts(more, i, itemId);
    ItemOutcomes(more, i, itemId);
    ItemInOrder(more, i, itemId);
    SuccessFinalConcat(events, more);
    CallsInOrderConcat(events, more);
  }

  /** The summaries of the trace of one item after one more slot. */
  lemma SlotStep(events: seq<Event>, more: seq<Event>, i: nat, item: PostItem, token: string, firstItemId: string, organizationId: string,
                 results: seq<PostResponse>)
    requires ErrorsFollowFailures(events) && ErrorsFollowFailures(more)
    ensures Harvest(events + more) == Harvest(events) + Harvest(more)
    ensures ItemTrace(events + more, i, item.id) <==> ItemTrace(events, i, item.id) && ItemTrace(more, i, item.id)
    ensures Calls(events + more, i) == Calls(events, i) + Calls(more, i)
    ensures Failures(events + more) == Failures(events) + Failures(more)
    ensures FailureNotices(events + more) == FailureNotices(events) + FailureNotices(more)
    ensures TokenAfter(events + more, token) == TokenAfter(more, TokenAfter(events, token))
    ensures TokensCurrent(events + more, token) <==> TokensCurrent(events, token) && TokensCurrent(more, TokenAfter(events, token))
    ensures ErrorsFollowFailures(events + more)
    ensures EndsWithRefreshAbort(more, firstItemId) ==> EndsWithRefreshAbort(events + more, firstItemId)
    ensures EndsWithBadBodyAbort(more, firstItemId, organizationId) ==> EndsWithBadBodyAbort(events + more, firstItemId, organizationId)
    ensures EndsPublished(more, i, item, organizationId, results) ==> EndsPublished(events + more, i, item, organizationId, results)
  {
    ConcatFacts(events, more, token);
    ItemConcat(events, more, i, item.id, token);
    ErrorsFollowFailuresConcat(events, more);
    EndingsConcat(events, more, firstItemId, organizationId);
  }

  /** The responses gathered so far after one more slot. */
  lemma HarvestStep(events: seq<Event>, more: seq<Event>, results0: seq<PostResponse>, results: seq<PostResponse>, collected: seq<PostResponse>)
    requires results == results0 + Harvest(events) && collected == results + Harvest(more)
    ensures collected == results0 + Harvest(events + more)
  {
    CountsConcat(events, more);
  }

  /** The success count and the abort causes of the trace of one item after one more slot. */
  lemma SlotCause(events: seq<Event>, more: seq<Event>, i: nat, done: bool, stop: Option<Failure>)
    requires Successes(events, i) == 0 && Closed(events) && NoAbortCause(events)
    requires Successes(more, i) == (if done then 1 else 0) && Closed(more)
    requires stop.None? ==> NoAbortCause(more)
    requires stop.Some? ==> CauseFreeBefore(more)
    ensures Successes(events + more, i) == if done then 1 else 0
    ensures Closed(events + more)
    ensures stop.None? ==> NoAbortCause(events + more)
    ensures stop.Some? ==> CauseFreeBefore(events + more)
  {
    OutcomesConcat(events, more);
    CauseStep(events, more, stop.Some?);
  }

  /** Slots without a success followed by one that may end in one keep every success final. */
  lemma SlotFinal(events: seq<Event>, more: seq<Event>, i: nat, item: PostItem, organizationId: string,
                  collected: seq<PostResponse>, done: bool)
    requires ItemTrace(events, i, item.id) && Successes(events, i) == 0
    requires ItemTrace(more, i, item.id) && Successes(more, i) == (if done then 1 else 0)
    requires done ==> EndsPublished(more, i, item, organizationId, collected)
    ensures SuccessFinal(events + more)
  {
    ItemOutcomes(events, i, item.id);
    ItemOutcomes(more, i, item.id);
    NoSuccessFinal(events);
    if done {
      SuccessLast(more, i, item.id);
    } else {
      NoSuccessFinal(more);
    }
    SuccessFinalConcat(events, more);
  }

  /** The trace of item `i` after one more slot, from the facts of the slot and of the slots before it. */
  lemma ItemStep(events: seq<Event>, more: seq<Event>, i: nat, item: PostItem, slot: nat, token: string, tokenAfter: string,
                 renewed: string, firstItemId: string, firstOrganizationId: string, organizationId: string,
                 results0: seq<PostResponse>, results: seq<PostResponse>, collected: seq<PostResponse>, done: bool, stop: Option<Failure>)
    requires results == results0 + Harvest(events)
    requires ItemTrace(events, i, item.id)
    requires Calls(events, i) <= slot && Failures(events) == slot
    requires i == 0 ==> Calls(events, 0) == slot
    requires TokensCurrent(events, token) && tokenAfter == TokenAfter(events, token)
    requires ErrorsFollowFailures(events) && FailureNotices(events) == 0
    requires Successes(events, i) == 0 && Closed(events) && NoAbortCause(events)
    requires collected == results + Harvest(more)
    requires ItemTrace(more, i, item.id)
    requires Calls(more, i) <= 1 && Failures(more) == if done then 0 else 1
    requires TokensCurrent(more, tokenAfter) && renewed == TokenAfter(more, tokenAfter)
    requires ErrorsFollowFailures(more)
    requires stop == Some(RefreshNeeded) ==> EndsWithRefreshAbort(more, firstItemId)
    requires stop == Some(BadBody) ==> EndsWithBadBodyAbort(more, firstItemId, firstOrganizationId)
    requires FailureNotices(more) == if stop == Some(BadBody) then 1 else 0
    requires done ==> EndsPublished(more, i, item, organizationId, collected)
    requires i == 0 ==> Calls(more, 0) == 1
    requires Successes(more, i) == (if done then 1 else 0) && Closed(more)
    requires stop.None? ==> NoAbortCause(more)
    requires stop.Some? ==> CauseFreeBefore(more)
    ensures collected == results0 + Harvest(events + more)
    ensures ItemTrace(events + more, i, item.id)
    ensures Calls(events + more, i) <= slot + 1
    ensures Failures(events + more) == slot + if done then 0 else 1
    ensures i == 0 ==> Calls(events + more, 0) == slot + 1
    ensures TokensCurrent(events + more, token) && renewed == TokenAfter(events + more, token)
    ensures ErrorsFollowFailures(events + more)
    ensures stop == Some(RefreshNeeded) ==> EndsWithRefreshAbort(events + more, firstItemId)
    ensures stop == Some(BadBody) ==> EndsWithBadBodyAbort(events + more, firstItemId, firstOrganizationId)
    ensures FailureNotices(events + more) == if stop == Some(BadBody) then 1 else 0
    ensures done ==> EndsPublished(events + more, i, item, organizationId, collected)
    ensures Successes(events + more, i) == (if done then 1 else 0) && Closed(events + more)
    ensures stop.None? ==> NoAbortCause(events + more)
    ensures stop.Some? ==> CauseFreeBefore(events + more)
    ensures SuccessFinal(events + more)
  {
    SlotFinal(events, more, i, item, organizationId, collected, done);
    SlotStep(events, more, i, item, token, firstItemId, firstOrganizationId, collected);
    SlotCause(events, more, i, done, stop);
    HarvestStep(events, more, results0, results, collected);
  }

  /**
   * The five attempt slots of item `i`. A success stops the attempts. A `refresh_token`
   * failure refreshes the integration's token and retries with it, or, when no access
   * token comes back, records ERROR and aborts. Any other failure records ERROR; a
   * `bad_body` one then sends the failure notification and aborts, the rest retry.
   * A comment is not attempted at all when the platform does not take comments.
   */
  method PublishItem(history: seq<Event>, i: nat, posts: seq<PostItem>, integration: Integration, token: string,
                     toComment: bool, results0: seq<PostResponse>, env: Env)
    returns (events: seq<Event>, results: seq<PostResponse>, tokenAfter: string, published: bool, abort: Option<Failure>)
    requires i < |posts|
    ensures results == results0 + Harvest(events)
    ensures ItemTrace(events, i, posts[i].id)
    ensures Calls(events, i) <= Slots
    ensures Failures(events) <= Slots
    ensures !published && abort.None? && (i == 0 || toComment) ==> Failures(events) == Slots
    ensures i > 0 && !toComment ==> events == [] && !published && abort.None?
    ensures TokensCurrent(events, token) && tokenAfter == TokenAfter(events, token)
    ensures ErrorsFollowFailures(events)
    ensures abort.Some? ==> !published && abort.value != OtherFailure
    ensures abort == Some(RefreshNeeded) ==> EndsWithRefreshAbort(events, posts[0].id)
    ensures abort == Some(BadBody) ==> EndsWithBadBodyAbort(events, posts[0].id, posts[0].organizationId)
    ensures FailureNotices(events) == if abort == Some(BadBody) then 1 else 0
    ensures published ==> EndsPublished(events, i, posts[i], integration.organizationId, results)
    ensures i == 0 ==> Calls(events, 0) > 0
    ensures i == 0 && !published && abort.None? ==> Calls(events, 0) == Slots
    ensures Successes(events, i) == if published then 1 else 0
    ensures Closed(events)
    ensures abort.None? ==> NoAbortCause(events)
    ensures abort.Some? ==> CauseFreeBefore(events)
    ensures SuccessFinal(events)
    ensures FailuresAnswered(events, posts[0].id, integration.id)
  {
    events := [];
    results := results0;
    tokenAfter := token;
    published := false;
    abort := None;
    if i > 0 && !toComment {
      return;
    }
    var slot := 0;
    while slot < Slots
      invariant 0 <= slot <= Slots
      invariant results == results0 + Harvest(events)
      invariant ItemTrace(events, i, posts[i].id)
      invariant Calls(events, i) <= slot && Failures(events) == slot
      invariant i == 0 ==> Calls(events, 0) == slot
      invariant TokensCurrent(events, token) && tokenAfter == TokenAfter(events, token)
      invariant ErrorsFollowFailures(events)
      invariant FailureNotices(events) == 0
      invariant !published && abort.None?
      invariant Successes(events, i) == 0 && Closed(events) && NoAbortCause(events)
      invariant SuccessFinal(events)
      invariant FailuresAnswered(events, posts[0].id, integration.id)
    {
      var more, collected, renewed, done, stop := AttemptSlot(history + events, i, posts, integration, tokenAfter, results, env);
      ItemStep(events, more, i, posts[i], slot, token, tokenAfter, renewed, posts[0].id, posts[0].organizationId,
               integration.organizationId, results0, results, collected, done, stop);
      FailuresAnsweredConcat(events, more, posts[0].id, integration.id);
      events := events + more;
      results := collected;
      tokenAfter := renewed;
      published := done;
      abort := stop;
      if done || stop.Some? {
        return;
      }
      slot := slot + 1;
    }
  }

  /**
   * The trace of the items before `i` followed by that of item `i`, from the facts of the
   * items so far and of item `i`: the loop invariant for the next item, and the
   * postcondition when item `i` aborts.
   */
  lemma ListStep(events: seq<Event>, more: seq<Event>, i: nat, posts: seq<PostItem>, toComment: bool, token: string, renewed: string,
                 results: seq<PostResponse>, collected: seq<PostResponse>, published: bool, stop: Option<Failure>)
    requires i < |posts|
    requires forall j :: 0 <= j < i && (j == 0 || toComment) ==> Settled(events, j)
    requires forall j: nat :: j >= i ==> Successes(events, j) == 0 && ItemFailures(events, j) == 0
    requires i > 0 ==> Calls(events, 0) > 0 && (results == [] ==> Calls(events, 0) == Slots)
    requires results == Harvest(events)
    requires PublishTrace(events)
    requires forall j: nat :: Calls(events, j) <= Slots && (j >= i ==> Calls(events, j) == 0)
    requires !toComment ==> NoComments(events)
    requires TokensCurrent(events, posts[0].integration.token) && token == TokenAfter(events, posts[0].integration.token)
    requires ErrorsFollowFailures(events) && FailureNotices(events) == 0
    requires (forall j: nat :: Successes(events, j) <= 1) && Closed(events) && NoAbortCause(events)
    requires SuccessFinal(events) && CallsInOrder(events)
    requires collected == results + Harvest(more)
    requires ItemTrace(more, i, posts[i].id)
    requires Calls(more, i) <= Slots
    requires !published && stop.None? && (i == 0 || toComment) ==> Failures(more) == Slots
    requires i > 0 && !toComment ==> more == []
    requires TokensCurrent(more, token) && renewed == TokenAfter(more, token)
    requires ErrorsFollowFailures(more)
    requires stop == Some(RefreshNeeded) ==> EndsWithRefreshAbort(more, posts[0].id)
    requires stop == Some(BadBody) ==> EndsWithBadBodyAbort(more, posts[0].id, posts[0].organizationId)
    requires FailureNotices(more) == if stop == Some(BadBody) then 1 else 0
    requires published ==> EndsPublished(more, i, posts[i], posts[0].integration.organizationId, collected)
    requires i == 0 ==> Calls(more, 0) > 0
    requires i == 0 && !published && stop.None? ==> Calls(more, 0) == Slots
    requires Successes(more, i) == (if published then 1 else 0) && Closed(more)
    requires stop.None? ==> NoAbortCause(more)
    requires stop.Some? ==> CauseFreeBefore(more)
    requires SuccessFinal(more)
    ensures forall j :: 0 <= j < i && (j == 0 || toComment) ==> Settled(events + more, j)
    ensures stop.None? ==> forall j :: 0 <= j < i + 1 && (j == 0 || toComment) ==> Settled(events + more, j)
    ensures forall j: nat :: j > i ==> Successes(events + more, j) == 0 && ItemFailures(events + more, j) == 0
    ensures Calls(events + more, 0) > 0
    ensures collected == [] && stop.None? ==> Calls(events + more, 0) == Slots
    ensures collected == Harvest(events + more)
    ensures PublishTrace(events + more)
    ensures forall j: nat :: Calls(events + more, j) <= Slots && (j > i ==> Calls(events + more, j) == 0)
    ensures !toComment ==> NoComments(events + more)
    ensures TokensCurrent(events + more, posts[0].integration.token) && renewed == TokenAfter(events + more, posts[0].integration.token)
    ensures ErrorsFollowFailures(events + more)
    ensures stop == Some(RefreshNeeded) ==> EndsWithRefreshAbort(events + more, posts[0].id)
    ensures stop == Some(BadBody) ==> EndsWithBadBodyAbort(events + more, posts[0].id, posts[0].organizationId)
    ensures FailureNotices(events + more) == if stop == Some(BadBody) then 1 else 0
    ensures (forall j: nat :: Successes(events + more, j) <= 1) && Closed(events + more)
    ensures stop.None? ==> NoAbortCause(events + more)
    ensures stop.Some? ==> CauseFreeBefore(events + more)
    ensures SuccessFinal(events + more) && CallsInOrder(events + more)
  {
    var integration := posts[0].integration;
    ConcatFacts(events, more, integration.token);
    ErrorsFollowFailuresConcat(events, more);
    EndingsConcat(events, more, posts[0].id, posts[0].organizationId);
    ItemTraceFacts(more, i, posts[i].id);
    forall j: nat ensures Calls(events + more, j) <= Slots && (j >= i + 1 ==> Calls(events + more, j) == 0) {
      if j != i {
        assert Calls(more, j) == 0;
      }
    }
    if published {
      PublishedSucceeds(more, i, posts[i], integration.organizationId, collected);
    }
    OutcomesStep(events, more, i, posts[i].id, (i == 0 || toComment) && stop.None?);
    CauseStep(events, more, stop.Some?);
    OrderStep(events, more, i, posts[i].id);
    MainPostStep(events, more, i, posts[i], integration.organizationId, results, collected, published, stop);
  }

  /**
   * The outer loop over `postsList`: each item in turn, until one aborts the run. An item
   * whose five slots all fail does not abort it; the loop goes on with the next item.
   */
  method PublishAll(history: seq<Event>, posts: seq<PostItem>, toComment: bool, env: Env)
    returns (events: seq<Event>, results: seq<PostResponse>, token: string, abort: Option<Failure>, reached: nat)
    requires |posts| > 0
    ensures abort.None? <==> reached == |posts|
    ensures reached <= |posts|
    ensures forall j :: 0 <= j < reached && (j == 0 || toComment) ==> Settled(events, j)
    ensures forall j: nat :: j > reached ==> Calls(events, j) == 0 && Successes(events, j) == 0 && ItemFailures(events, j) == 0
    ensures Calls(events, 0) > 0
    ensures abort.None? && results == [] ==> Calls(events, 0) == Slots
    ensures results == Harvest(events)
    ensures PublishTrace(events)
    ensures forall j: nat :: Calls(events, j) <= Slots
    ensures forall j: nat :: j >= |posts| ==> Calls(events, j) == 0
    ensures !toComment ==> NoComments(events)
    ensures TokensCurrent(events, posts[0].integration.token) && token == TokenAfter(events, posts[0].integration.token)
    ensures ErrorsFollowFailures(events)
    ensures abort.Some? ==> abort.value != OtherFailure
    ensures abort == Some(RefreshNeeded) ==> EndsWithRefreshAbort(events, posts[0].id)
    ensures abort == Some(BadBody) ==> EndsWithBadBodyAbort(events, posts[0].id, posts[0].organizationId)
    ensures FailureNotices(events) == if abort == Some(BadBody) then 1 else 0
    ensures forall j: nat :: Successes(events, j) <= 1
    ensures Closed(events)
    ensures abort.None? ==> NoAbortCause(events)
    ensures abort.Some? ==> CauseFreeBefore(events)
    ensures SuccessFinal(events) && CallsInOrder(events)
    ensures FailuresAnswered(events, posts[0].id, posts[0].integration.id)
  {
    var integration := posts[0].integration;
    events := [];
    results := [];
    token := integration.token;
    abort := None;
    var i := 0;
    while i < |posts|
      invariant 0 <= i <= |posts|
      invariant forall j :: 0 <= j < i && (j == 0 || toComment) ==> Settled(events, j)
      invariant forall j: nat :: j >= i ==> Successes(events, j) == 0 && ItemFailures(events, j) == 0
      invariant i > 0 ==> Calls(events, 0) > 0 && (results == [] ==> Calls(events, 0) == Slots)
      invariant results == Harvest(events)
      invariant PublishTrace(events)
      invariant forall j: nat :: Calls(events, j) <= Slots && (j >= i ==> Calls(events, j) == 0)
      invariant !toComment ==> NoComments(events)
      invariant TokensCurrent(events, integration.token) && token == TokenAfter(events, integration.token)
      invariant ErrorsFollowFailures(events)
      invariant FailureNotices(events) == 0
      invariant abort.None?
      invariant (forall j: nat :: Successes(events, j) <= 1) && Closed(events) && NoAbortCause(events)
      invariant SuccessFinal(events) && CallsInOrder(events)
      invariant FailuresAnswered(events, posts[0].id, integration.id)
    {
      var more, collected, renewed, published, stop := PublishItem(history + events, i, posts, integration, token, toComment, results, env);
      ListStep(events, more, i, posts, toComment, token, renewed, results, collected, published, stop);
      FailuresAnsweredConcat(events, more, posts[0].id, integration.id);
      events := events + more;
      results := collected;
      token := renewed;
      if stop.Some? {
        abort := stop;
        reached := i;
        return;
      }
      i := i + 1;
    }
    reached := i;
  }
}
