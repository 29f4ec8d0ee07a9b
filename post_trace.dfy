/**
 * The observable behaviour of a publication run, as a trace of events: every activity the
 * workflow calls, every sleep and every notification, in order, with the arguments that
 * matter and the replies. The functions below summarise a trace; each comes with the law
 * that relates its value on a concatenation to its values on the parts.
 */
module PostTrace {
  import opened Wrappers
  import opened PlugQueue

  /** How an activity failure is classified: `refresh_token`, `bad_body`, or anything else. */
  datatype Failure = RefreshNeeded | BadBody | OtherFailure

  /** The reply of an activity that can fail inside the workflow's `try` blocks. */
  datatype Reply<T> = Ok(value: T) | Fail(failure: Failure)

  datatype PostResponse = PostResponse(postId: string, releaseURL: string)

  datatype Integration = Integration(
    id: string,
    organizationId: string,
    providerIdentifier: string,
    token: string,
    disabled: bool,
    refreshNeeded: bool)

  /** One entry of `getPostsList`: the main post first, then its comments. */
  datatype PostItem = PostItem(
    id: string,
    organizationId: string,
    state: string,
    delay: int,
    intervalInDays: int,
    settings: string,
    integration: Integration)

  /** The in-app notifications sent outside a `try`: the `'info'` and the `'fail'` kinds. */
  datatype Notice = InfoNotice | FailureNotice

  /** The arguments the workflow is started with. */
  datatype WorkflowArgs = WorkflowArgs(taskQueue: string, postId: string, organizationId: string, postNow: bool)

  /** The arguments of `startChild` for the repeat of a recurring post. */
  datatype ChildRun = ChildRun(
    workflowIdPrefix: string,
    taskQueue: string,
    postId: string,
    organizationId: string,
    postNow: bool,
    parentClosePolicy: string,
    searchPostId: string)

  datatype Event =
    | PostsLoaded(organizationId: string, postId: string)
    | Slept(milliseconds: int)
    | Notified(organizationId: string, notice: Notice)
    | CommentableChecked(commentable: bool)
    | Posted(token: string, posted: Reply<seq<PostResponse>>)
    | Commented(index: nat, anchor: string, parent: Option<string>, token: string, posted: Reply<seq<PostResponse>>)
    | TypeErrorRaised(index: nat)
    | Updated(index: nat, itemId: string, postId: string, releaseURL: string, ack: Reply<()>)
    | SuccessNotified(organizationId: string, releaseURL: string, ack: Reply<()>)
    | TokenRefreshed(integrationId: string, accessToken: Option<string>)
    | StateChanged(postId: string, cause: Failure)
    | WebhooksSent(postId: string, organizationId: string, integrationId: string)
    | InternalPlugsLoaded(internal: seq<InternalPlug>)
    | GlobalPlugsLoaded(global: seq<GlobalPlug>)
    | IntegrationLoaded(organizationId: string, integrationId: string)
    | InternalPlugRun(task: PlugTask, postId: string, ack: Reply<()>)
    | GlobalPlugRun(task: PlugTask, postId: string, verdict: Reply<bool>)
    | ChildStarted(child: ChildRun)

  /**
   * The activities and the services behind them. Each one sees the trace so far, so any
   * deterministic environment that reacts to what already happened is covered.
   */
  datatype Env = Env(
    getPostsList: (string, string) -> seq<PostItem>,
    isCommentable: (seq<Event>, Integration) -> bool,
    postSocial: (seq<Event>, Integration, PostItem) -> Reply<seq<PostResponse>>,
    postComment: (seq<Event>, string, Option<string>, Integration, PostItem) -> Reply<seq<PostResponse>>,
    updatePost: (seq<Event>, string, string, string) -> Reply<()>,
    notifyPublished: (seq<Event>, string, string) -> Reply<()>,
    refreshToken: (seq<Event>, Integration) -> Option<string>,
    internalPlugs: (seq<Event>, Integration, string) -> seq<InternalPlug>,
    globalPlugs: (seq<Event>, Integration) -> seq<GlobalPlug>,
    getIntegrationById: (seq<Event>, string, string) -> Integration,
    processInternalPlug: (seq<Event>, PlugTask, string) -> Reply<()>,
    processPlug: (seq<Event>, PlugTask, string) -> Reply<bool>)

  /** `!refresh || !refresh.accessToken` fails exactly for a missing or empty token. */
  predicate Usable(accessToken: Option<string>)
  {
    accessToken.Some? && accessToken.value != ""
  }

  /** The failure an attempt event carries, if any; a JavaScript `TypeError` is neither tag. */
  function AttemptFailure(e: Event): Option<Failure>
  {
    match e
    case Posted(_, Fail(f)) => Some(f)
    case Commented(_, _, _, _, Fail(f)) => Some(f)
    case TypeErrorRaised(_) => Some(OtherFailure)
    case Updated(_, _, _, _, Fail(f)) => Some(f)
    case SuccessNotified(_, _, Fail(f)) => Some(f)
    case _ => None
  }

  /** An event of one pass through the publishing `try` body. */
  predicate AttemptEvent(e: Event)
  {
    e.Slept? || e.Posted? || e.Commented? || e.TypeErrorRaised? || e.Updated? || e.SuccessNotified?
  }

  /** An event of the publish loop. */
  predicate PublishEvent(e: Event)
  {
    AttemptEvent(e) || e.TokenRefreshed? || e.StateChanged? || (e.Notified? && e.notice == FailureNotice)
  }

  /** An activity of the plug phase, which only a run that got past the publish loop reaches. */
  predicate PlugWork(e: Event)
  {
    e.WebhooksSent? || e.InternalPlugsLoaded? || e.GlobalPlugsLoaded? || e.IntegrationLoaded?
    || e.InternalPlugRun? || e.GlobalPlugRun? || e.ChildStarted?
  }

  /** An event of the plug phase. */
  predicate PlugEvent(e: Event)
  {
    e.Slept? || e.TokenRefreshed? || PlugWork(e)
  }

  /** `e` belongs to the attempts at item `i`, whose `PostItem` id is `itemId`. */
  predicate ItemEvent(e: Event, i: nat, itemId: string)
  {
    && (e.Posted? ==> i == 0)
    && (e.Commented? ==> i > 0 && e.index == i)
    && (e.TypeErrorRaised? ==> e.index == i)
    && (e.Updated? ==> e.index == i && e.itemId == itemId)
    && (e.SuccessNotified? ==> i == 0)
  }

  /** `e` belongs to an attempt at item `i` made with `token`. */
  predicate AttemptBy(e: Event, i: nat, itemId: string, token: string)
  {
    AttemptEvent(e) && ItemEvent(e, i, itemId) && (e.Posted? || e.Commented? ==> e.token == token)
  }

  /** Every event of `s` belongs to an attempt at item `i` with `token`. */
  predicate AttemptTrace(s: seq<Event>, i: nat, itemId: string, token: string)
  {
    s == [] || (AttemptBy(s[0], i, itemId, token) && AttemptTrace(s[1..], i, itemId, token))
  }

  /** Every event of `s` belongs to the publish loop's work on item `i`. */
  predicate ItemTrace(s: seq<Event>, i: nat, itemId: string)
  {
    s == [] || (PublishEvent(s[0]) && ItemEvent(s[0], i, itemId) && ItemTrace(s[1..], i, itemId))
  }

  /** Every event of `s` belongs to the publish loop. */
  predicate PublishTrace(s: seq<Event>)
  {
    s == [] || (PublishEvent(s[0]) && PublishTrace(s[1..]))
  }

  /** Every event of `s` belongs to the plug phase. */
  predicate PlugTrace(s: seq<Event>)
  {
    s == [] || (PlugEvent(s[0]) && PlugTrace(s[1..]))
  }

  /** No comment is posted and only the main post is marked as published. */
  predicate NoComments(s: seq<Event>)
  {
    s == [] || (!s[0].Commented? && (s[0].Updated? ==> s[0].index == 0) && NoComments(s[1..]))
  }

  /** The results `postSocial` and `postComment` returned, in order: what `postsResults` holds. */
  function Harvest(s: seq<Event>): seq<PostResponse>
  {
    if s == [] then [] else Returned(s[0]) + Harvest(s[1..])
  }

  /** The results one event brings back. */
  function Returned(e: Event): seq<PostResponse>
  {
    match e
    case Posted(_, Ok(rs)) => rs
    case Commented(_, _, _, _, Ok(rs)) => rs
    case _ => []
  }

  /** `e` calls the platform for item `i`: `postSocial` for the main post, `postComment` for a comment. */
  predicate CallsFor(e: Event, i: nat)
  {
    (e.Posted? && i == 0) || (e.Commented? && e.index == i)
  }

  function Calls(s: seq<Event>, i: nat): nat
  {
    if s == [] then 0 else (if CallsFor(s[0], i) then 1 else 0) + Calls(s[1..], i)
  }

  /** The number of failed attempts. */
  function Failures(s: seq<Event>): nat
  {
    if s == [] then 0 else (if AttemptFailure(s[0]).Some? then 1 else 0) + Failures(s[1..])
  }

  /** The item an attempt event belongs to: the main post for `postSocial` and the success notice, else its index. */
  function ItemOf(e: Event): nat
  {
    match e
    case Commented(index, _, _, _, _) => index
    case TypeErrorRaised(index) => index
    case Updated(index, _, _, _, _) => index
    case _ => 0
  }

  /** `e` ends a successful attempt at item `i`: the success notice of the main post, or a comment marked as published. */
  predicate Succeeds(e: Event, i: nat)
  {
    (e.SuccessNotified? && e.ack.Ok? && i == 0) || (e.Updated? && e.ack.Ok? && 0 < i == e.index)
  }

  /** The number of successful attempts at item `i`. */
  function Successes(s: seq<Event>, i: nat): nat
  {
    if s == [] then 0 else (if Succeeds(s[0], i) then 1 else 0) + Successes(s[1..], i)
  }

  /** The number of failed attempts at item `i`. */
  function ItemFailures(s: seq<Event>, i: nat): nat
  {
    if s == [] then 0 else (if AttemptFailure(s[0]).Some? && ItemOf(s[0]) == i then 1 else 0) + ItemFailures(s[1..], i)
  }

  function FailureNotices(s: seq<Event>): nat
  {
    if s == [] then 0 else (if s[0].Notified? && s[0].notice == FailureNotice then 1 else 0) + FailureNotices(s[1..])
  }

  function ChildCount(s: seq<Event>): nat
  {
    if s == [] then 0 else (if s[0].ChildStarted? then 1 else 0) + ChildCount(s[1..])
  }

  /** The number of times a plug was processed. */
  function PlugRuns(s: seq<Event>): nat
  {
    if s == [] then 0 else (if s[0].InternalPlugRun? || s[0].GlobalPlugRun? then 1 else 0) + PlugRuns(s[1..])
  }

  /** The durations slept, in order. */
  function Sleeps(s: seq<Event>): seq<int>
  {
    if s == [] then [] else (if s[0].Slept? then [s[0].milliseconds] else []) + Sleeps(s[1..])
  }

  /** The integration token after event `e`: a usable refreshed token replaces it. */
  function NextToken(e: Event, token: string): string
  {
    if e.TokenRefreshed? && Usable(e.accessToken) then e.accessToken.value else token
  }

  function TokenAfter(s: seq<Event>, token: string): string
  {
    if s == [] then token else TokenAfter(s[1..], NextToken(s[0], token))
  }

  /** Every publishing call of `s` uses the token current at its point, starting from `token`. */
  predicate TokensCurrent(s: seq<Event>, token: string)
  {
    s == [] || ((s[0].Posted? || s[0].Commented? ==> s[0].token == token) && TokensCurrent(s[1..], NextToken(s[0], token)))
  }

  /**
   * `prev` is what `changeState(…, 'ERROR', err)` may directly follow when `err` has the tag
   * `cause`: for `refresh_token` only a refresh that gave no token, for the others the failed
   * attempt itself.
   */
  predicate CausedBy(prev: Event, cause: Failure)
  {
    if cause == RefreshNeeded then prev.TokenRefreshed? && !Usable(prev.accessToken)
    else AttemptFailure(prev) == Some(cause)
  }

  /** Every ERROR state change directly follows the failure that caused it. */
  predicate ErrorsFollowFailures(s: seq<Event>)
  {
    && (|s| > 0 ==> !s[0].StateChanged?)
    && forall k :: 0 < k < |s| && s[k].StateChanged? ==> CausedBy(s[k - 1], s[k].cause)
  }

  /**
   * No failure of `s` is one the publish loop answers with `return false`: no `bad_body`
   * failure, and every `refresh_token` failure directly followed by a refresh that gave a
   * token.
   */
  predicate NoAbortCause(s: seq<Event>)
  {
    s == [] ||
    (&& AttemptFailure(s[0]) != Some(BadBody)
     && (AttemptFailure(s[0]) == Some(RefreshNeeded) ==> |s| > 1 && s[1].TokenRefreshed? && Usable(s[1].accessToken))
     && NoAbortCause(s[1..]))
  }

  /**
   * What the `catch` block does first with a failure tagged `f`: a `refresh_token` failure
   * refreshes the integration's token, any other failure records ERROR against the first post.
   */
  predicate Answers(e: Event, f: Failure, firstItemId: string, integrationId: string)
  {
    if f == RefreshNeeded then e.TokenRefreshed? && e.integrationId == integrationId
    else e == StateChanged(firstItemId, f)
  }

  /** Every failed attempt of `s` is directly followed by its answer, so `s` does not end in a failure. */
  predicate FailuresAnswered(s: seq<Event>, firstItemId: string, integrationId: string)
  {
    s == [] ||
    (&& (AttemptFailure(s[0]).Some? ==> |s| > 1 && Answers(s[1], AttemptFailure(s[0]).value, firstItemId, integrationId))
     && FailuresAnswered(s[1..], firstItemId, integrationId))
  }

  /**
   * A success ends the attempts at its item: after the success event of an item, `s`
   * holds no call and no failed attempt for that item.
   */
  ghost predicate SuccessFinal(s: seq<Event>)
  {
    s == [] ||
    (&& (forall j: nat :: Succeeds(s[0], j) ==> Calls(s[1..], j) == 0 && ItemFailures(s[1..], j) == 0)
     && SuccessFinal(s[1..]))
  }

  /** The platform is called for the items in list order: no call for an item follows a call for a later one. */
  ghost predicate CallsInOrder(s: seq<Event>)
  {
    s == [] ||
    (&& (forall i: nat, j: nat :: CallsFor(s[0], i) && Calls(s[1..], j) > 0 ==> i <= j)
     && CallsInOrder(s[1..]))
  }

  /** An aborted trace: nothing before its three closing events is a cause to abort. */
  predicate CauseFreeBefore(s: seq<Event>)
  {
    |s| >= 3 && NoAbortCause(s[..|s| - 3])
  }

  /** The last event of `s`, if any, carries no attempt failure: whatever failed was handled. */
  predicate Closed(s: seq<Event>)
  {
    s == [] || AttemptFailure(s[|s| - 1]).None?
  }

  /** The ending of a run whose token refresh gave no access token. */
  predicate EndsWithRefreshAbort(s: seq<Event>, firstItemId: string)
  {
    && |s| >= 3
    && s[|s| - 1] == StateChanged(firstItemId, RefreshNeeded)
    && s[|s| - 2].TokenRefreshed? && !Usable(s[|s| - 2].accessToken)
    && AttemptFailure(s[|s| - 3]) == Some(RefreshNeeded)
  }

  /** The ending of a run rejected with `bad_body`. */
  predicate EndsWithBadBodyAbort(s: seq<Event>, firstItemId: string, organizationId: string)
  {
    && |s| >= 3
    && s[|s| - 1] == Notified(organizationId, FailureNotice)
    && s[|s| - 2] == StateChanged(firstItemId, BadBody)
    && AttemptFailure(s[|s| - 3]) == Some(BadBody)
  }

  /** The publish-loop summaries of a concatenation. */
  lemma ConcatFacts(a: seq<Event>, b: seq<Event>, token: string)
    ensures Harvest(a + b) == Harvest(a) + Harvest(b)
    ensures forall i: nat :: Calls(a + b, i) == Calls(a, i) + Calls(b, i)
    ensures Failures(a + b) == Failures(a) + Failures(b)
    ensures FailureNotices(a + b) == FailureNotices(a) + FailureNotices(b)
    ensures TokenAfter(a + b, token) == TokenAfter(b, TokenAfter(a, token))
    ensures TokensCurrent(a + b, token) <==> TokensCurrent(a, token) && TokensCurrent(b, TokenAfter(a, token))
    ensures PublishTrace(a + b) <==> PublishTrace(a) && PublishTrace(b)
    ensures NoComments(a + b) <==> NoComments(a) && NoComments(b)
  {
    CountsConcat(a, b);
    TokensConcat(a, b, token);
  }

  /** The counts of a concatenation add up. */
  lemma {:induction false} CountsConcat(a: seq<Event>, b: seq<Event>)
    ensures Harvest(a + b) == Harvest(a) + Harvest(b)
    ensures forall i: nat :: Calls(a + b, i) == Calls(a, i) + Calls(b, i)
    ensures Failures(a + b) == Failures(a) + Failures(b)
    ensures FailureNotices(a + b) == FailureNotices(a) + FailureNotices(b)
    decreases |a|
  {
    if a == [] {
      assert a + b == b;
    } else {
      assert (a + b)[1..] == a[1..] + b;
      CountsConcat(a[1..], b);
    }
  }

  /** The token and the event kinds of a concatenation follow its parts. */
  lemma {:induction false} TokensConcat(a: seq<Event>, b: seq<Event>, token: string)
    ensures TokenAfter(a + b, token) == TokenAfter(b, TokenAfter(a, token))
    ensures TokensCurrent(a + b, token) <==> TokensCurrent(a, token) && TokensCurrent(b, TokenAfter(a, token))
    ensures PublishTrace(a + b) <==> PublishTrace(a) && PublishTrace(b)
    ensures NoComments(a + b) <==> NoComments(a) && NoComments(b)
    decreases |a|
  {
    if a == [] {
      assert a + b == b;
    } else {
      assert (a + b)[1..] == a[1..] + b;
      TokensConcat(a[1..], b, NextToken(a[0], token));
    }
  }

  /** The item summaries of a concatenation. */
  lemma {:induction false} ItemConcat(a: seq<Event>, b: seq<Event>, i: nat, itemId: string, token: string)
    ensures ItemTrace(a + b, i, itemId) <==> ItemTrace(a, i, itemId) && ItemTrace(b, i, itemId)
    ensures AttemptTrace(a + b, i, itemId, token) <==> AttemptTrace(a, i, itemId, token) && AttemptTrace(b, i, itemId, token)
    decreases |a|
  {
    if a == [] {
      assert a + b == b;
    } else {
      assert (a + b)[1..] == a[1..] + b;
      ItemConcat(a[1..], b, i, itemId, token);
    }
  }

  /** The per-item summaries of a concatenation. */
  lemma {:induction false} OutcomesConcat(a: seq<Event>, b: seq<Event>)
    ensures forall i: nat :: Successes(a + b, i) == Successes(a, i) + Successes(b, i)
    ensures forall i: nat :: ItemFailures(a + b, i) == ItemFailures(a, i) + ItemFailures(b, i)
    decreases |a|
  {
    if a == [] {
      assert a + b == b;
    } else {
      assert (a + b)[1..] == a[1..] + b;
      OutcomesConcat(a[1..], b);
    }
  }

  /** A trace whose last event is a success at item `i` counts it. */
  lemma SuccessAtEnd(s: seq<Event>, i: nat)
    requires |s| > 0 && Succeeds(s[|s| - 1], i)
    ensures Successes(s, i) > 0
  {
    var last := [s[|s| - 1]];
    assert s == s[..|s| - 1] + last;
    OutcomesConcat(s[..|s| - 1], last);
    assert last[1..] == [];
  }

  /** Joining after a handled failure neither creates nor hides an abort cause. */
  lemma {:induction false} NoAbortCauseConcat(a: seq<Event>, b: seq<Event>)
    requires Closed(a)
    ensures NoAbortCause(a + b) <==> NoAbortCause(a) && NoAbortCause(b)
    ensures Closed(b) ==> Closed(a + b)
    decreases |a|
  {
    if a == [] {
      assert a + b == b;
    } else {
      assert (a + b)[1..] == a[1..] + b;
      if |a| > 1 {
        assert (a + b)[1] == a[1];
        assert a[1..][|a[1..]| - 1] == a[|a| - 1];
      }
      NoAbortCauseConcat(a[1..], b);
      if b != [] {
        assert (a + b)[|a + b| - 1] == b[|b| - 1];
      }
    }
  }

  /** Joining two traces keeps every success final when the second touches no item the first one settled. */
  lemma {:induction false} SuccessFinalConcat(a: seq<Event>, b: seq<Event>)
    requires forall j: nat :: Successes(a, j) > 0 ==> Calls(b, j) == 0 && ItemFailures(b, j) == 0
    requires SuccessFinal(a) && SuccessFinal(b)
    ensures SuccessFinal(a + b)
    decreases |a|
  {
    if a == [] {
      assert a + b == b;
    } else {
      assert (a + b)[1..] == a[1..] + b;
      CountsConcat(a[1..], b);
      OutcomesConcat(a[1..], b);
      SuccessFinalConcat(a[1..], b);
    }
  }

  /** A trace without successes has every success final. */
  lemma {:induction false} NoSuccessFinal(s: seq<Event>)
    requires forall j: nat :: Successes(s, j) == 0
    ensures SuccessFinal(s)
    decreases |s|
  {
    if s != [] {
      forall j: nat ensures Successes(s[1..], j) == 0 && !Succeeds(s[0], j) {
        assert Successes(s, j) == 0;
      }
      NoSuccessFinal(s[1..]);
    }
  }

  /** A trace whose one success is its last event has every success final. */
  lemma SuccessLast(s: seq<Event>, i: nat, itemId: string)
    requires ItemTrace(s, i, itemId) && |s| > 0
    requires Successes(s, i) == 1 && Succeeds(s[|s| - 1], i)
    ensures SuccessFinal(s)
  {
    var front, last := s[..|s| - 1], [s[|s| - 1]];
    assert s == front + last;
    ItemOutcomes(s, i, itemId);
    OutcomesConcat(front, last);
    OneEvent(s[|s| - 1], i, itemId, "");
    NoSuccessFinal(front);
    assert last[1..] == [];
    SuccessFinalConcat(front, last);
  }

  /** The index form: after a success at item `j` no call and no failure for `j` follows. */
  lemma {:induction false} SuccessFinalAt(s: seq<Event>, k: nat, j: nat)
    requires SuccessFinal(s) && k < |s| && Succeeds(s[k], j)
    ensures Calls(s[k + 1..], j) == 0 && ItemFailures(s[k + 1..], j) == 0
    decreases k
  {
    if k > 0 {
      assert s[1..][k - 1] == s[k] && s[1..][k..] == s[k + 1..];
      SuccessFinalAt(s[1..], k - 1, j);
    }
  }

  /** Joining two traces keeps the calls in order when the second calls for no earlier item than the first. */
  lemma {:induction false} CallsInOrderConcat(a: seq<Event>, b: seq<Event>)
    requires forall i: nat, j: nat :: Calls(a, i) > 0 && Calls(b, j) > 0 ==> i <= j
    requires CallsInOrder(a) && CallsInOrder(b)
    ensures CallsInOrder(a + b)
    decreases |a|
  {
    if a == [] {
      assert a + b == b;
    } else {
      assert (a + b)[1..] == a[1..] + b;
      CountsConcat(a[1..], b);
      forall i: nat ensures Calls(a[1..], i) <= Calls(a, i) && (CallsFor(a[0], i) ==> Calls(a, i) > 0) {
      }
      CallsInOrderConcat(a[1..], b);
    }
  }

  /** A trace without calls has its calls in order. */
  lemma {:induction false} NoCallsInOrder(s: seq<Event>)
    requires forall j: nat :: Calls(s, j) == 0
    ensures CallsInOrder(s)
    decreases |s|
  {
    if s != [] {
      forall j: nat ensures Calls(s[1..], j) == 0 && !CallsFor(s[0], j) {
        assert Calls(s, j) == 0;
      }
      NoCallsInOrder(s[1..]);
    }
  }

  /** The events of one item have their calls in order. */
  lemma {:induction false} ItemInOrder(s: seq<Event>, i: nat, itemId: string)
    requires ItemTrace(s, i, itemId)
    ensures CallsInOrder(s)
    decreases |s|
  {
    if s != [] {
      ItemTraceFacts(s[1..], i, itemId);
      ItemInOrder(s[1..], i, itemId);
    }
  }

  /** A call at position `k` is counted. */
  lemma {:induction false} CalledAt(s: seq<Event>, k: nat, j: nat)
    requires k < |s| && CallsFor(s[k], j)
    ensures Calls(s, j) > 0
    decreases k
  {
    if k > 0 {
      assert s[1..][k - 1] == s[k];
      CalledAt(s[1..], k - 1, j);
    }
  }

  /** The index form: a call for item `i` before a call for item `j` means `i <= j`. */
  lemma {:induction false} CallsInOrderAt(s: seq<Event>, k: nat, k': nat, i: nat, j: nat)
    requires CallsInOrder(s) && k < k' < |s| && CallsFor(s[k], i) && CallsFor(s[k'], j)
    ensures i <= j
    decreases k
  {
    if k == 0 {
      assert s[1..][k' - 1] == s[k'];
      CalledAt(s[1..], k' - 1, j);
    } else {
      assert s[1..][k - 1] == s[k] && s[1..][k' - 1] == s[k'];
      CallsInOrderAt(s[1..], k - 1, k' - 1, i, j);
    }
  }

  /** A trace without attempt failures holds no abort cause and is closed. */
  lemma {:induction false} NoFailureNoCause(s: seq<Event>)
    requires Failures(s) == 0
    ensures NoAbortCause(s) && Closed(s)
    decreases |s|
  {
    if s != [] {
      NoFailureNoCause(s[1..]);
      if |s| > 1 {
        assert s[1..][|s[1..]| - 1] == s[|s| - 1];
      }
    }
  }

  /** A trace without attempt failures has none to answer. */
  lemma {:induction false} NoFailureAnswered(s: seq<Event>, firstItemId: string, integrationId: string)
    requires Failures(s) == 0
    ensures FailuresAnswered(s, firstItemId, integrationId)
    decreases |s|
  {
    if s != [] {
      NoFailureAnswered(s[1..], firstItemId, integrationId);
    }
  }

  /** One more event adds one failure exactly when it is a failed attempt. */
  lemma {:induction false} FailuresSnoc(s: seq<Event>, e: Event)
    ensures Failures(s + [e]) == Failures(s) + if AttemptFailure(e).Some? then 1 else 0
    decreases |s|
  {
    if s == [] {
      assert s + [e] == [e] && [e][1..] == [];
    } else {
      assert (s + [e])[1..] == s[1..] + [e];
      FailuresSnoc(s[1..], e);
    }
  }

  /** An answered trace is closed: its last event is no failure, since nothing follows it. */
  lemma {:induction false} AnsweredIsClosed(s: seq<Event>, firstItemId: string, integrationId: string)
    requires FailuresAnswered(s, firstItemId, integrationId)
    ensures Closed(s)
    decreases |s|
  {
    if |s| > 1 {
      assert s[1..][|s[1..]| - 1] == s[|s| - 1];
      AnsweredIsClosed(s[1..], firstItemId, integrationId);
    }
  }

  /** Two answered traces joined: the first one's last event is no failure, so nothing is left unanswered. */
  lemma {:induction false} FailuresAnsweredConcat(a: seq<Event>, b: seq<Event>, firstItemId: string, integrationId: string)
    requires FailuresAnswered(a, firstItemId, integrationId) && FailuresAnswered(b, firstItemId, integrationId)
    ensures FailuresAnswered(a + b, firstItemId, integrationId)
    decreases |a|
  {
    if a == [] {
      assert a + b == b;
    } else {
      assert (a + b)[1..] == a[1..] + b;
      if |a| > 1 {
        assert (a + b)[1] == a[1];
      }
      FailuresAnsweredConcat(a[1..], b, firstItemId, integrationId);
    }
  }

  /** The index form: the event after a failed attempt answers it. */
  lemma {:induction false} FailureAnsweredAt(s: seq<Event>, k: nat, firstItemId: string, integrationId: string)
    requires FailuresAnswered(s, firstItemId, integrationId) && k < |s| && AttemptFailure(s[k]).Some?
    ensures k + 1 < |s| && Answers(s[k + 1], AttemptFailure(s[k]).value, firstItemId, integrationId)
    decreases k
  {
    if k > 0 {
      assert s[1..][k - 1] == s[k];
      FailureAnsweredAt(s[1..], k - 1, firstItemId, integrationId);
    }
  }

  /** The part of a run before its abort ending, after a prefix without an abort cause. */
  lemma AbortPrefixConcat(a: seq<Event>, b: seq<Event>)
    requires Closed(a) && NoAbortCause(a)
    requires CauseFreeBefore(b)
    ensures CauseFreeBefore(a + b)
  {
    assert (a + b)[..|a + b| - 3] == a + b[..|b| - 3];
    NoAbortCauseConcat(a, b[..|b| - 3]);
  }

  /**
   * Appending the events of one more step to a closed trace without an abort cause: a
   * step that goes on keeps the trace free of causes, one that aborts has its cause only
   * in its ending.
   */
  lemma CauseStep(events: seq<Event>, more: seq<Event>, stop: bool)
    requires Closed(events) && NoAbortCause(events) && Closed(more)
    requires !stop ==> NoAbortCause(more)
    requires stop ==> CauseFreeBefore(more)
    ensures Closed(events + more)
    ensures !stop ==> NoAbortCause(events + more)
    ensures stop ==> CauseFreeBefore(events + more)
  {
    NoAbortCauseConcat(events, more);
    if more == [] {
      assert events + more == events;
    }
    if stop {
      AbortPrefixConcat(events, more);
    }
  }

  /** The plug-phase summaries of a concatenation. */
  lemma PlugConcatFacts(a: seq<Event>, b: seq<Event>)
    ensures ChildCount(a + b) == ChildCount(a) + ChildCount(b)
    ensures PlugRuns(a + b) == PlugRuns(a) + PlugRuns(b)
    ensures Sleeps(a + b) == Sleeps(a) + Sleeps(b)
    ensures PlugTrace(a + b) <==> PlugTrace(a) && PlugTrace(b)
  {
    PlugCountsConcat(a, b);
    PlugKindsConcat(a, b);
  }

  lemma {:induction false} PlugCountsConcat(a: seq<Event>, b: seq<Event>)
    ensures ChildCount(a + b) == ChildCount(a) + ChildCount(b)
    ensures PlugRuns(a + b) == PlugRuns(a) + PlugRuns(b)
    decreases |a|
  {
    if a == [] {
      assert a + b == b;
    } else {
      assert (a + b)[1..] == a[1..] + b;
      PlugCountsConcat(a[1..], b);
    }
  }

  lemma PlugKindsConcat(a: seq<Event>, b: seq<Event>)
    ensures Sleeps(a + b) == Sleeps(a) + Sleeps(b)
    ensures PlugTrace(a + b) <==> PlugTrace(a) && PlugTrace(b)
  {
    SleepsConcat(a, b);
    PlugTraceConcat(a, b);
  }

  lemma {:induction false} SleepsConcat(a: seq<Event>, b: seq<Event>)
    ensures Sleeps(a + b) == Sleeps(a) + Sleeps(b)
    decreases |a|
  {
    if a == [] {
      assert a + b == b;
    } else {
      assert (a + b)[0] == a[0] && (a + b)[1..] == a[1..] + b;
      SleepsConcat(a[1..], b);
      var slept := if a[0].Slept? then [a[0].milliseconds] else [];
      assert Sleeps(a + b) == slept + Sleeps(a[1..] + b);
      assert Sleeps(a) == slept + Sleeps(a[1..]);
    }
  }

  lemma {:induction false} PlugTraceConcat(a: seq<Event>, b: seq<Event>)
    ensures PlugTrace(a + b) <==> PlugTrace(a) && PlugTrace(b)
    decreases |a|
  {
    if a == [] {
      assert a + b == b;
    } else {
      assert (a + b)[0] == a[0] && (a + b)[1..] == a[1..] + b;
      PlugTraceConcat(a[1..], b);
    }
  }

  /** The summaries of a single event. */
  lemma OneEvent(e: Event, i: nat, itemId: string, token: string)
    ensures Harvest([e]) == Returned(e)
    ensures Calls([e], i) == if CallsFor(e, i) then 1 else 0
    ensures Failures([e]) == if AttemptFailure(e).Some? then 1 else 0
    ensures FailureNotices([e]) == if e.Notified? && e.notice == FailureNotice then 1 else 0
    ensures ChildCount([e]) == if e.ChildStarted? then 1 else 0
    ensures PlugRuns([e]) == if e.InternalPlugRun? || e.GlobalPlugRun? then 1 else 0
    ensures Sleeps([e]) == if e.Slept? then [e.milliseconds] else []
    ensures TokenAfter([e], token) == NextToken(e, token)
    ensures TokensCurrent([e], token) <==> (e.Posted? || e.Commented? ==> e.token == token)
    ensures PublishTrace([e]) <==> PublishEvent(e)
    ensures PlugTrace([e]) <==> PlugEvent(e)
    ensures NoComments([e]) <==> !e.Commented? && (e.Updated? ==> e.index == 0)
    ensures ItemTrace([e], i, itemId) <==> PublishEvent(e) && ItemEvent(e, i, itemId)
    ensures AttemptTrace([e], i, itemId, token) <==> AttemptBy(e, i, itemId, token)
    ensures Successes([e], i) == if Succeeds(e, i) then 1 else 0
  {
    assert [e][1..] == [];
  }

  /** Appending the ERROR state change right after the failure it reports. */
  lemma ErrorAfterFailure(s: seq<Event>, e: Event)
    requires ErrorsFollowFailures(s) && |s| > 0
    requires e.StateChanged? && CausedBy(s[|s| - 1], e.cause)
    ensures ErrorsFollowFailures(s + [e])
  {
    var t := s + [e];
    forall k | 0 < k < |t| && t[k].StateChanged? ensures CausedBy(t[k - 1], t[k].cause) {
      if k < |s| {
        assert t[k] == s[k] && t[k - 1] == s[k - 1];
      }
    }
  }

  lemma ErrorsFollowFailuresConcat(a: seq<Event>, b: seq<Event>)
    requires ErrorsFollowFailures(a) && ErrorsFollowFailures(b)
    ensures ErrorsFollowFailures(a + b)
  {
    var s := a + b;
    forall k | 0 < k < |s| && s[k].StateChanged? ensures CausedBy(s[k - 1], s[k].cause) {
      if k < |a| {
        assert s[k] == a[k] && s[k - 1] == a[k - 1];
      } else if k > |a| {
        assert s[k] == b[k - |a|] && s[k - 1] == b[k - 1 - |a|];
      }
    }
  }

  /** The endings of a trace are those of its last part. */
  lemma EndingsConcat(a: seq<Event>, b: seq<Event>, firstItemId: string, organizationId: string)
    ensures EndsWithRefreshAbort(b, firstItemId) ==> EndsWithRefreshAbort(a + b, firstItemId)
    ensures EndsWithBadBodyAbort(b, firstItemId, organizationId) ==> EndsWithBadBodyAbort(a + b, firstItemId, organizationId)
    ensures |b| > 0 ==> (a + b)[|a + b| - 1] == b[|b| - 1]
    ensures |b| > 1 ==> (a + b)[|a + b| - 2] == b[|b| - 2]
  {
    if |b| >= 3 {
      assert (a + b)[|a + b| - 3] == b[|b| - 3];
    }
  }

  /**
   * What one attempt's events imply: the token stays, nothing is recorded as ERROR, no
   * failure notice is sent, and the events belong to the publish loop's work on the item.
   */
  lemma {:induction false} AttemptTraceFacts(s: seq<Event>, i: nat, itemId: string, token: string)
    requires AttemptTrace(s, i, itemId, token)
    ensures TokenAfter(s, token) == token
    ensures TokensCurrent(s, token)
    ensures ErrorsFollowFailures(s)
    ensures FailureNotices(s) == 0
    ensures ItemTrace(s, i, itemId)
    ensures forall j: nat :: j != i ==> Calls(s, j) == 0
    ensures i == 0 ==> NoComments(s)
    decreases |s|
  {
    if s != [] {
      AttemptTraceFacts(s[1..], i, itemId, token);
    }
  }

  /** The events of item `i` call the platform for no other item. */
  lemma {:induction false} ItemTraceFacts(s: seq<Event>, i: nat, itemId: string)
    requires ItemTrace(s, i, itemId)
    ensures forall j: nat :: j != i ==> Calls(s, j) == 0
    ensures i == 0 ==> NoComments(s)
    ensures PublishTrace(s)
    decreases |s|
  {
    if s != [] {
      ItemTraceFacts(s[1..], i, itemId);
    }
  }

  /** Every failure of item `i`'s events is one of item `i`, and they settle no other item. */
  lemma {:induction false} ItemOutcomes(s: seq<Event>, i: nat, itemId: string)
    requires ItemTrace(s, i, itemId)
    ensures ItemFailures(s, i) == Failures(s)
    ensures forall j: nat :: j != i ==> Successes(s, j) == 0 && ItemFailures(s, j) == 0
    decreases |s|
  {
    if s != [] {
      ItemOutcomes(s[1..], i, itemId);
      forall j: nat | j != i ensures Successes(s, j) == 0 && ItemFailures(s, j) == 0 {
        assert !Succeeds(s[0], j) && !(AttemptFailure(s[0]).Some? && ItemOf(s[0]) == j);
      }
    }
  }

  /** The plug phase neither publishes, nor fails a publishing attempt, nor changes the post's state. */
  lemma {:induction false} PlugTraceFacts(s: seq<Event>, token: string)
    requires PlugTrace(s)
    ensures forall i: nat :: Calls(s, i) == 0
    ensures Harvest(s) == [] && Failures(s) == 0 && FailureNotices(s) == 0
    ensures ErrorsFollowFailures(s)
    ensures TokensCurrent(s, token)
    ensures NoComments(s)
    decreases |s|
  {
    if s != [] {
      PlugTraceFacts(s[1..], NextToken(s[0], token));
    }
  }

  /** The plug phase settles no item. */
  lemma {:induction false} PlugOutcomes(s: seq<Event>)
    requires PlugTrace(s)
    ensures forall i: nat :: Successes(s, i) == 0 && ItemFailures(s, i) == 0
    decreases |s|
  {
    if s != [] {
      PlugOutcomes(s[1..]);
    }
  }

  /** The publish loop does no plug work. */
  lemma {:induction false} PublishTraceDoesNoPlugWork(s: seq<Event>)
    requires PublishTrace(s)
    ensures forall k :: 0 <= k < |s| ==> PublishEvent(s[k]) && !PlugWork(s[k])
    decreases |s|
  {
    if s != [] {
      PublishTraceDoesNoPlugWork(s[1..]);
      assert forall k :: 1 <= k < |s| ==> s[k] == s[1..][k - 1];
    }
  }

  lemma {:induction false} PlugTraceEvents(s: seq<Event>)
    requires PlugTrace(s)
    ensures forall k :: 0 <= k < |s| ==> PlugEvent(s[k])
    decreases |s|
  {
    if s != [] {
      PlugTraceEvents(s[1..]);
      assert forall k :: 1 <= k < |s| ==> s[k] == s[1..][k - 1];
    }
  }
}
