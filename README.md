# omni-post: post publication workflow, routing middleware and cookie-authenticated fetch

This project models, in Dafny, three parts of the omni-post scheduler and proves properties of them.

1. **`postWorkflowV101`**, the durable workflow that publishes one scheduled post and its comment chain. It:
   - loads the posts and checks the gate (the post exists, and it is queued unless `postNow`);
   - sleeps until the publish date;
   - with the integration's `refreshNeeded` or `disabled` flag set, sends an info notification and stops.

   Otherwise it publishes the main post and then each comment. Each item gets up to five attempts, the five labels of `iterate`. A failure is classified by its tag:
   - `refresh_token` refreshes the token and retries; with no token back it marks the post `ERROR` and aborts;
   - `bad_body` marks the post `ERROR`, notifies the user and aborts;
   - any other failure marks the post `ERROR` and retries.

   After publishing it:
   - sends the webhooks;
   - loads the internal plugs, and the global plugs expanded into `totalRuns` firings at multiples of their delay;
   - adds the repeat post of a recurring post;
   - sorts all of these by delay, stably.

   Finally it drains that queue. It sleeps for each task's delay and runs it with up to five attempts. A global plug that reports itself satisfied prunes every remaining task with the same `plugId`. The repeat task starts a child run of the workflow.
2. **`middleware`**, the Next.js routing middleware of the frontend. It is a pure decision from the request (path, cookies, headers, query) and two environment flags to pass-through-or-redirect, plus the cookies it sets.
3. **`getCookie`** and the **`createAuthFetch`** header merge of the frontend. `getCookie` reads one cookie from `document.cookie` by splitting on `'; name='`. `createAuthFetch` adds the `auth` and `showorg` cookies as headers, unless a header of that name is already set, and always sends credentials.

## How the workflow is modelled

- Every activity is an oracle: a function-typed field of `PostTrace.Env` that receives the trace of events so far. The model therefore covers every deterministic environment that reacts to what already happened. Examples of such reactions are a platform that rejects the second attempt, or a refresh that fails after a rejection.
- A run produces a trace of `PostTrace.Event`s. Each step has its own event:
  - the posts load and each sleep;
  - the `isCommentable` check;
  - each `postSocial` call, with its reply;
  - each `postComment` call, with the post it comments on and the one it replies to;
  - the TypeErrors of `postsResults[k]`;
  - `updatePost` and the success notification;
  - token refreshes, state changes and notifications;
  - webhooks, plug loads and plug runs;
  - the child start.
- The contracts are stated on summaries of the trace:
  - `Harvest`: the `postsResults` built so far;
  - `Calls(s, i)`: the publish calls made for item `i`;
  - `TokenAfter`: the in-memory token after a refresh;
  - `ChildCount`, `Sleeps` and `PlugRuns`.
- The code has three imperative loops, each a method with its invariant:
  - the loop over the posts: `PostPublish.PublishAll`;
  - the `iterate` loop: `PostPublish.PublishItem`, and `RunInternalPlug`/`RunGlobalPlug` for plugs;
  - the drain `while`: `PlugDrain.DrainPlugQueue`.
- The queue is built by `PlugQueue.BuildPlugQueue`:
  - the `reduce` that expands global plugs is `ExpandGlobalPlugs`;
  - a stable insertion sort stands for lodash `sortBy`;
  - the reverse `splice` loop is `PruneSamePlug`.
- A run's outcome is one of four values:
  - `Skipped`: it returned before publishing;
  - `Aborted(reason)`: it hit a `return false`;
  - `Completed`: it reached the end;
  - `Crashed`: it threw outside any `try`, as the code does at `postsResults[0].postId` when nothing was published.

Time is an input:
- `msUntilPublish` is `publishDate` minus now;
- `elapsedMilliseconds` is the time from the run's start to the computation of the repeat delay.

Four behaviours of the code that a reader might not expect are modelled as written:
- **Repeat condition.** A post recurs when `intervalInDays` is nonzero (`!post.intervalInDays`); a negative interval recurs too.
- **A refresh uses up a slot.** A successful refresh ends with `continue` inside `for (const _ of iterate)`, so the retry uses up one of the five slots.
- **No result means a crash.** When no main-post result exists, the run throws at `sendWebhooks(postsResults[0].postId, …)`, outside any `try`, after all its events so far: no plug work, no child.
- **No clamping.** The repeat delay `intervalInDays * 86400000 - elapsed` is used as computed, even when negative.

Two further behaviours of the code are also modelled as written:
- **Comments after a failed main post.** When the main post never got a result, each comment attempt raises a TypeError at `postsResults[0]`. The TypeError is caught and classified as an other failure.
- **A short result list.** When a platform returned fewer results than items, the `updatePost` of item `i` raises a TypeError at `postsResults[i]`. It is handled the same way.

## Model

| member | source | states |
|---|---|---|
| PostWorkflow.PostWorkflowV101 | apps/orchestrator/src/workflows/post-workflows/post.workflow.v1.0.1.ts:51-417 | The run is skipped exactly when there is no admitted post, or the integration needs a refresh or is disabled. A run that was not admitted leaves only the load in its trace. A refresh-needed or disabled run leaves the load, the wait and one info notice to the post's organization. Any other run starts with the load and the wait, and is `Concluded` (see `Publication`): including where publishing stops: calls go in list order, once an item succeeds it is neither called nor failed again, no item is marked published twice, every failure is answered by the next event (a `refresh_token` one by a refresh of the post's integration, any other by the `ERROR` of the first post), and a run that did not abort met no `bad_body` failure and had every `refresh_token` failure directly followed by a refresh that gave a token. |
| PostWorkflow.Publication | apps/orchestrator/src/workflows/post-workflows/post.workflow.v1.0.1.ts:133-416 | The outcome satisfies three groups of properties. **Discipline:** at most five publish calls per item and none past the list; no comment when not commentable; every call uses the current token; every `ERROR` state change directly follows the failure that caused it; conversely, every failed attempt is directly followed by its answer: a `refresh_token` failure by a token refresh of the post's integration, and any other failure by the `ERROR` state of the first post with that failure as cause. **Ending:** the main post always gets at least one `postSocial` call; every item the run tries (the main post, and the comments when commentable) ends in a success or in five failed slots, up to the item that aborts, after which no item is called, published or failed; an abort is never for an other failure; a refresh abort ends with the failed refresh and the `ERROR` of the first post; a bad-body abort ends with `ERROR` and one failure notice; aborted and crashed runs do no plug work; a crash had no result and used all five main-post slots. **Follow-up:** a completed run sends the webhooks for the first result, with the post's organization and integration, and starts exactly one child if and only if the post recurs, always with the repeat arguments. **Stop:** the platform is called for the items in list order; once an item succeeds, the run makes no further call and records no further failure for it, and no item is marked published more than once; a run that did not abort met no `bad_body` failure, and each of its `refresh_token` failures is directly followed by a refresh that gave a token; an aborted run met no cause to abort before the three events that end it. An `ERROR` for a `refresh_token` failure comes only right after a refresh that gave no token. |
| PostWorkflow.ConcludedAfterCall | apps/orchestrator/src/workflows/post-workflows/post.workflow.v1.0.1.ts:141-153 | A concluded run has called the platform for its main post: no trace without that call, the empty one included, is concluded. |
| PostWorkflow.ConcludedWithoutBadBody | apps/orchestrator/src/workflows/post-workflows/post.workflow.v1.0.1.ts:231-249 | A concluded run that did not abort has no `bad_body` failure anywhere in its trace: the first one would have aborted it. |
| PostWorkflow.CauseFreeAt | apps/orchestrator/src/workflows/post-workflows/post.workflow.v1.0.1.ts:208-249 | A trace with no cause to abort has no `bad_body` failure at any position, and each `refresh_token` failure in it is directly followed by a refresh that gave a token. |
| PostWorkflow.ConcludedFailuresRecorded | apps/orchestrator/src/workflows/post-workflows/post.workflow.v1.0.1.ts:204-228 | In a concluded run, the event after a failed attempt with any tag but `refresh_token` is the `ERROR` state change of the first post with that tag as cause; the event after a `refresh_token` failure is a token refresh of the post's integration. |
| PostWorkflow.ConcludedRefreshesRenewed | apps/orchestrator/src/workflows/post-workflows/post.workflow.v1.0.1.ts:208-224 | In a concluded run that did not abort, every `refresh_token` failure is directly followed by a refresh that gave a usable token: neither an `ERROR` nor a failed refresh comes between them. |
| PostWorkflow.ConcludedSuccessEndsAttempts | apps/orchestrator/src/workflows/post-workflows/post.workflow.v1.0.1.ts:201-203 | In a concluded run, after the event that marks an item published, the rest of the trace holds no platform call and no failure for that item. |
| PostWorkflow.ConcludedCallsInOrder | apps/orchestrator/src/workflows/post-workflows/post.workflow.v1.0.1.ts:141-143 | In a concluded run, a platform call for item `i` that comes before one for item `j` has `i <= j`. |
| PostWorkflow.FrontStops | apps/orchestrator/src/workflows/post-workflows/post.workflow.v1.0.1.ts:133-252 | The comment check before the publish loop succeeds for no item and is no cause to abort, so where the loop stops carries over to the run so far. |
| PostWorkflow.CompletedStops | apps/orchestrator/src/workflows/post-workflows/post.workflow.v1.0.1.ts:254-416 | The follow-up work succeeds for no item and fails nothing, so a completed run's publishing still stops where it did. |
| PostWorkflow.OpenedStops | apps/orchestrator/src/workflows/post-workflows/post.workflow.v1.0.1.ts:51-132 | The load and the wait succeed for no item and fail nothing, so where publishing stops carries over to the whole run. |
| PostWorkflow.Wait | apps/orchestrator/src/workflows/post-workflows/post.workflow.v1.0.1.ts:95-101 | No sleep when posting now; otherwise one sleep of the remaining time, zero when the publish date is past. |
| PostWorkflow.FollowUp | apps/orchestrator/src/workflows/post-workflows/post.workflow.v1.0.1.ts:254-416 | Starts with the webhooks for `results[0]`, then the two plug loads. The rest is the drain of the plug queue built from the loaded plugs: task by task in the order `Taken` gives for the run verdicts, a sleep of the task's delay followed by that task's run (`TaskRun`), until nothing is left. The sleeps are the delays of the processed tasks. Everything after publishing is plug work. One child is started if and only if `intervalInDays != 0`, and every child carries the repeat arguments. |
| PostWorkflow.RunPlugQueue | apps/orchestrator/src/workflows/post-workflows/post.workflow.v1.0.1.ts:282-416 | The processed tasks are what `Taken` takes from the sorted queue of the gathered tasks with the run verdicts, and nothing is left. The events are, per task, a sleep of its delay followed by its run (`TaskRun`), so the sleeps are the processed delays. The child count follows the recurrence. The processed tasks are in delay order, and a task is processed fewer times than gathered only as a pruned firing of a plug satisfied earlier (`Drained`). |
| PostWorkflow.RepeatOnce | apps/orchestrator/src/workflows/post-workflows/post.workflow.v1.0.1.ts:283-292 | Since only global firings are pruned, the repeat task is processed exactly once if the post recurs and never otherwise. |
| PostWorkflow.Complete | apps/orchestrator/src/workflows/post-workflows/post.workflow.v1.0.1.ts:254-416 | A publication with results, followed by the follow-up work, is `Concluded` as completed. |
| PostPublish.PublishAll | apps/orchestrator/src/workflows/post-workflows/post.workflow.v1.0.1.ts:141-252 | The results are exactly what the publish calls returned. The main post always gets at least one call. Every item up to `reached` that the loop tries (the main post, and the comments with `toComment`) ends in a success event or in five failures; `reached` is the list length exactly when nothing aborted, and no item after it is called or settled. With no abort and no result, all five main-post slots were used. Every item gets at most five calls and no item past the list gets any. Without `toComment` no comment is posted. Every call uses the token current at that point, and the returned token is the last refreshed one. Errors follow failures, and every failure is directly followed by its answer: a refresh of the post's integration for `refresh_token`, the `ERROR` of the first post for any other. The abort reasons and their endings are as in `Publication`. The calls go in list order. Once an item succeeds, no later event calls or fails it, and no item succeeds more than once. Without an abort, no failure was a `bad_body` one and every `refresh_token` failure was directly followed by a refresh that gave a token; with an abort, no such cause occurs before the three events that end the run. |
| PostPublish.PublishItem | apps/orchestrator/src/workflows/post-workflows/post.workflow.v1.0.1.ts:143-251 | At most five calls and five failures. An item neither published nor aborted has used all five slots. A comment when not commentable produces no event at all. Tokens stay current. Each failure of the item is directly followed by a refresh of the integration (`refresh_token`) or by the `ERROR` of the first post (any other failure, lines 226-228). A publish ends with the `updatePost` of this item (and for the main post the success notice). The item's success count is one when it is published and zero otherwise, and no call or failure follows the success: the `break` at line 203 ends its attempts. Closing the slots without an abort means no `bad_body` failure happened and every `refresh_token` failure was directly followed by a refresh that gave a token; an abort has its cause among the last three events, with none before them (lines 218 and 248 return at once). |
| PostPublish.AttemptSlot | apps/orchestrator/src/workflows/post-workflows/post.workflow.v1.0.1.ts:144-250 | One slot either publishes, with no failure, or fails once and hands the failure on. The event after its failure is the refresh of the integration for `refresh_token`, and the `ERROR` of the first post, with the failure as cause, for any other. It aborts only on `refresh_token` without a token or on `bad_body`, with the matching ending. Its success count for the item is one exactly when it publishes. Without an abort the slot holds no `bad_body` failure, any `refresh_token` failure in it is directly followed by a refresh that gave a token, and its last event is no unhandled failure; with an abort, nothing before its three closing events is such a cause. |
| PostPublish.TryPublish | apps/orchestrator/src/workflows/post-workflows/post.workflow.v1.0.1.ts:144-203 | One pass of the `try` block: at most one call, at most one failure, and on success the item's `updatePost`. The item counts one success exactly when the pass does not fail. |
| PostPublish.CallPlatform | apps/orchestrator/src/workflows/post-workflows/post.workflow.v1.0.1.ts:146-153 | The main post is one `postSocial` with the current token. Its results are appended to `postsResults`. The call alone is no success for the item. |
| PostPublish.CallComment | apps/orchestrator/src/workflows/post-workflows/post.workflow.v1.0.1.ts:155-173 | A comment first sleeps `60000 * delay` if it has a delay. It raises a TypeError exactly when no result exists yet, or `postsResults[i-1]` is missing after more than one result. Otherwise it comments on the first result, as a reply to the previous one unless there is only one result. The call alone is no success for the item. |
| PostPublish.MarkPublished | apps/orchestrator/src/workflows/post-workflows/post.workflow.v1.0.1.ts:176-200 | `updatePost` uses the item's own result `postsResults[i]`, and raises a TypeError when that is missing. For the main post it then notifies the integration's organization with the first release URL. The item counts one success exactly when no TypeError or failure occurred. |
| PostPublish.HandleFailure | apps/orchestrator/src/workflows/post-workflows/post.workflow.v1.0.1.ts:204-250 | **`refresh_token`:** refreshes; either continues with the new non-empty token, or records `ERROR` on the first post and aborts. **`bad_body`:** records `ERROR`, sends one failure notice and aborts. **Other:** records `ERROR` and continues. No publish calls and no successes in any case; the first event answers the failure (`Answers`). |
| PostPublish.HandledAfterFailure | apps/orchestrator/src/workflows/post-workflows/post.workflow.v1.0.1.ts:208-249 | The handling keeps every `ERROR` right after its cause: the failure itself for a `bad_body` or other failure, the refresh that gave no token for a `refresh_token` one. It produces the refresh-abort and bad-body-abort endings. |
| PostTrace.AttemptTraceFacts | apps/orchestrator/src/workflows/post-workflows/post.workflow.v1.0.1.ts:144-203 | A pass of the `try` block never changes the token, never notifies of a failure, and makes calls only for its own item. |
| PostTrace.PublishTraceDoesNoPlugWork | apps/orchestrator/src/workflows/post-workflows/post.workflow.v1.0.1.ts:141-252 | The publish loop does no plug work. |
| PostTrace.PlugTraceFacts | apps/orchestrator/src/workflows/post-workflows/post.workflow.v1.0.1.ts:254-416 | The follow-up makes no publish call, collects no result, has no publish failure or failure notice, posts no comment, and records no `ERROR` state change without its failure. |
| PostTrace.ItemOutcomes | apps/orchestrator/src/workflows/post-workflows/post.workflow.v1.0.1.ts:143-251 | The slots of one item fail or succeed only for that item; its failures are all of the trace's failures. |
| PostTrace.PlugOutcomes | apps/orchestrator/src/workflows/post-workflows/post.workflow.v1.0.1.ts:254-416 | The follow-up publishes and fails no item. |
| PostPublish.OutcomesStep | apps/orchestrator/src/workflows/post-workflows/post.workflow.v1.0.1.ts:141-252 | After the slots of one more item, the earlier items stay settled, the later ones untouched, and the item itself is settled when it ended in a success or five failures. No item has more than one success when the new item has at most one. |
| PostPublish.HandledCause | apps/orchestrator/src/workflows/post-workflows/post.workflow.v1.0.1.ts:204-250 | A failed attempt and its handling: the slot's last event is handled; it has no cause to abort when the handling continues, and otherwise a cause only among its last three events. |
| PostPublish.AnsweredAttempt | apps/orchestrator/src/workflows/post-workflows/post.workflow.v1.0.1.ts:204-228 | A failed pass of the `try` block followed by a handling that starts with the failure's answer leaves no failure unanswered. |
| PostPublish.AnsweredFailure | apps/orchestrator/src/workflows/post-workflows/post.workflow.v1.0.1.ts:204-228 | A failure followed by its answer and then by failure-free events leaves no failure unanswered. |
| PostPublish.FailedAttempt | apps/orchestrator/src/workflows/post-workflows/post.workflow.v1.0.1.ts:144-250 | A failed pass of the `try` block followed by its handling ends handled; it holds no cause to abort when the handling continues (a usable refreshed token, or an other failure), and otherwise holds one only among its last three events. |
| PostPublish.SlotCause | apps/orchestrator/src/workflows/post-workflows/post.workflow.v1.0.1.ts:143-251 | One more slot after slots with no success and no cause to abort keeps the item's success count at that slot's, and puts any cause of an abort in the last three events. |
| PostPublish.ItemStep | apps/orchestrator/src/workflows/post-workflows/post.workflow.v1.0.1.ts:143-251 | The facts of the slots so far and of one more slot give the same facts for the slots including it. |
| PostPublish.HarvestStep | apps/orchestrator/src/workflows/post-workflows/post.workflow.v1.0.1.ts:152-173 | The results gathered after one more slot are those before it followed by what the slot's calls returned. |
| PostPublish.SlotFinal | apps/orchestrator/src/workflows/post-workflows/post.workflow.v1.0.1.ts:143-203 | Slots with no success, followed by one more slot that ends in the item's success only as its last event, keep every success final: nothing calls or fails the item after it. |
| PostPublish.OrderStep | apps/orchestrator/src/workflows/post-workflows/post.workflow.v1.0.1.ts:141-143 | The items before `i`, which never touch item `i` or a later one, followed by the slots of item `i`: successes stay final and calls stay in list order. |
| PostPublish.MainPostStep | apps/orchestrator/src/workflows/post-workflows/post.workflow.v1.0.1.ts:141-153 | After the slots of any item the main post has had a call, and with no result and no abort all five of its slots were used. |
| PostPublish.ListStep | apps/orchestrator/src/workflows/post-workflows/post.workflow.v1.0.1.ts:141-252 | The loop invariant of the publish loop for the items before `i`, together with what the slots of item `i` promise, gives the invariant for the items up to `i`, and the postcondition when item `i` aborts. |
| PostTrace.SuccessFinalConcat | apps/orchestrator/src/workflows/post-workflows/post.workflow.v1.0.1.ts:141-252 | Two traces with final successes keep them final when joined, provided nothing in the second calls or fails an item the first marked published. |
| PostTrace.NoSuccessFinal | apps/orchestrator/src/workflows/post-workflows/post.workflow.v1.0.1.ts:141-252 | A trace that marks nothing published has every success final. |
| PostTrace.SuccessLast | apps/orchestrator/src/workflows/post-workflows/post.workflow.v1.0.1.ts:176-203 | A trace of one item whose single success is its last event has every success final. |
| PostTrace.SuccessFinalAt | apps/orchestrator/src/workflows/post-workflows/post.workflow.v1.0.1.ts:201-203 | With final successes, the suffix after a success at position `k` has no call and no failure for that item. |
| PostTrace.CallsInOrderConcat | apps/orchestrator/src/workflows/post-workflows/post.workflow.v1.0.1.ts:141-143 | Two traces with calls in order keep them in order when joined, provided every item called in the first is at most every item called in the second. |
| PostTrace.NoCallsInOrder | apps/orchestrator/src/workflows/post-workflows/post.workflow.v1.0.1.ts:141-143 | A trace with no platform call has its calls in order. |
| PostTrace.ItemInOrder | apps/orchestrator/src/workflows/post-workflows/post.workflow.v1.0.1.ts:143-251 | The trace of a single item has its calls in order. |
| PostTrace.CalledAt | apps/orchestrator/src/workflows/post-workflows/post.workflow.v1.0.1.ts:141-143 | A call for item `j` at position `k` counts as a call for `j` in every suffix that contains it. |
| PostTrace.CallsInOrderAt | apps/orchestrator/src/workflows/post-workflows/post.workflow.v1.0.1.ts:141-143 | With calls in order, a call for `i` at position `k` and one for `j` at a later position `k'` have `i <= j`. |
| PostTrace.NoFailureAnswered | apps/orchestrator/src/workflows/post-workflows/post.workflow.v1.0.1.ts:141-252 | A trace without failed attempts has no failure left unanswered. |
| PostTrace.AnsweredIsClosed | apps/orchestrator/src/workflows/post-workflows/post.workflow.v1.0.1.ts:141-252 | A trace whose every failure is answered does not end in a failure. |
| PostTrace.FailuresAnsweredConcat | apps/orchestrator/src/workflows/post-workflows/post.workflow.v1.0.1.ts:141-252 | Joining two traces whose failures are all answered leaves none unanswered. |
| PostTrace.FailureAnsweredAt | apps/orchestrator/src/workflows/post-workflows/post.workflow.v1.0.1.ts:204-228 | The index form: in an answered trace, the event after a failed attempt at position `k` exists and answers its tag. |
| PostTrace.FailuresSnoc | apps/orchestrator/src/workflows/post-workflows/post.workflow.v1.0.1.ts:141-252 | One more event adds one to the failure count exactly when it is a failed attempt. |
| PostTrace.NoAbortCauseConcat | apps/orchestrator/src/workflows/post-workflows/post.workflow.v1.0.1.ts:141-252 | A trace whose first part ends handled has no cause to abort exactly when neither part has. |
| PostTrace.NoFailureNoCause | apps/orchestrator/src/workflows/post-workflows/post.workflow.v1.0.1.ts:141-252 | A trace with no failed attempt has no cause to abort and ends handled. |
| PostTrace.AbortPrefixConcat | apps/orchestrator/src/workflows/post-workflows/post.workflow.v1.0.1.ts:141-252 | Prefixing a cause-free, handled trace to an aborted one keeps its cause among the last three events. |
| PostTrace.CauseStep | apps/orchestrator/src/workflows/post-workflows/post.workflow.v1.0.1.ts:141-252 | The publish loop's stopping facts survive one more slot or item, whether or not it aborts. |
| PlugDrain.DrainPlugQueue | apps/orchestrator/src/workflows/post-workflows/post.workflow.v1.0.1.ts:300-416 | The processed tasks are exactly the queue drained from the front, each satisfied global plug pruning the remaining tasks with its `plugId` (`Taken`), until nothing is left (`Left` is empty). The events are, per processed task, one sleep of its delay followed by its processing (`Segments`). Each processing is one to five attempts at the plug, or the child start for the repeat task; a global plug counts as satisfied exactly when its last run replied `true` (`TaskRun`). Hence the sleeps are the processed delays, one child is started per repeat task, and `Drained` holds. |
| PlugDrain.RunInternalPlug | apps/orchestrator/src/workflows/post-workflows/post.workflow.v1.0.1.ts:309-341 | Between one and five runs. The attempts stop early only after a success, a `bad_body`, or a refresh of the task's own integration (loaded by id) that yields no token. |
| PlugDrain.ProcessTask | apps/orchestrator/src/workflows/post-workflows/post.workflow.v1.0.1.ts:305-415 | One task's processing: the runs of its internal or global plug, or the child start for the repeat task. Only a global plug can come out satisfied, exactly when its last run replied `true`. |
| PlugDrain.ProcessedTasksRun | apps/orchestrator/src/workflows/post-workflows/post.workflow.v1.0.1.ts:305-393 | Every processed internal or global plug runs at least once, and a task is satisfied only when it is a global plug whose last run replied `true`. |
| PlugDrain.TakenSnoc | apps/orchestrator/src/workflows/post-workflows/post.workflow.v1.0.1.ts:300-364 | Taking one more task takes the head of what is left and leaves the rest after pruning by its verdict; once nothing is left, nothing more is taken. |
| PlugDrain.TakenInOrder | apps/orchestrator/src/workflows/post-workflows/post.workflow.v1.0.1.ts:300-364 | With no satisfied verdict, the drain takes the queue in its own order and leaves the rest behind. |
| PlugDrain.TakenFromQueue | apps/orchestrator/src/workflows/post-workflows/post.workflow.v1.0.1.ts:300-364 | Nothing is taken twice: what is taken and what is left add up to no more than the queue. |
| PlugDrain.TakenProgress | apps/orchestrator/src/workflows/post-workflows/post.workflow.v1.0.1.ts:300-364 | Draining a sorted queue keeps the loop invariant: taken in delay order; every task taken, left or pruned by a satisfied firing of its plug; no firing of a satisfied plug taken or left after it. |
| PlugDrain.TakenDrained | apps/orchestrator/src/workflows/post-workflows/post.workflow.v1.0.1.ts:300-364 | A drain of a sorted queue that leaves nothing satisfies `Drained`. |
| PlugDrain.SegmentsFacts | apps/orchestrator/src/workflows/post-workflows/post.workflow.v1.0.1.ts:300-416 | The events of the per-task sleeps and runs are plug work only, sleep exactly the task delays in order, and start one child per repeat task, each with the repeat arguments. |
| PlugDrain.RunGlobalPlug | apps/orchestrator/src/workflows/post-workflows/post.workflow.v1.0.1.ts:344-393 | Between one and five runs; a refresh uses the post's integration. The plug counts as satisfied exactly when the last run replied `true`. |
| PlugDrain.RepeatChild | apps/orchestrator/src/workflows/post-workflows/post.workflow.v1.0.1.ts:396-414 | The child runs now, is abandoned by its parent, has the same post, organization and task queue, is tagged with the post id, and has its id prefixed `post_<id>_`. |
| PlugDrain.OnlyGlobalPruned | apps/orchestrator/src/workflows/post-workflows/post.workflow.v1.0.1.ts:351-364 | Internal plugs and the repeat post are never pruned. |
| PlugDrain.NothingPrunedUnlessSatisfied | apps/orchestrator/src/workflows/post-workflows/post.workflow.v1.0.1.ts:351-364 | When no plug is reported satisfied, the processed tasks are exactly the queue. |
| PlugQueue.BuildPlugQueue | apps/orchestrator/src/workflows/post-workflows/post.workflow.v1.0.1.ts:262-298 | The queue is sorted by delay. It is a permutation of the internal tasks, then the expanded global firings, then the repeat task. Tasks with equal delays keep that order. |
| PlugQueue.ExpandGlobalPlugs | apps/orchestrator/src/workflows/post-workflows/post.workflow.v1.0.1.ts:268-280 | The loop computes the expansion of the global plug list. |
| PlugQueue.PushFirings | apps/orchestrator/src/workflows/post-workflows/post.workflow.v1.0.1.ts:270-275 | The inner `for` appends exactly the firings 1..totalRuns of the current plug. |
| PlugQueue.Firings | apps/orchestrator/src/workflows/post-workflows/post.workflow.v1.0.1.ts:270-275 | Firing `k` of a plug has delay `delay * k`, for `k` from 1 to `totalRuns`. |
| PlugQueue.ExpansionOfOnePlug | apps/orchestrator/src/workflows/post-workflows/post.workflow.v1.0.1.ts:268-280 | One plug expands into `totalRuns` global tasks (none when `totalRuns < 1`), the k-th with delay `delay * k`. |
| PlugQueue.ExpansionConcat | apps/orchestrator/src/workflows/post-workflows/post.workflow.v1.0.1.ts:268-280 | Expanding two lists is expanding each in turn. |
| PlugQueue.ExpansionIsGlobal | apps/orchestrator/src/workflows/post-workflows/post.workflow.v1.0.1.ts:271-274 | The expansion contains only global tasks. |
| PlugQueue.InternalTasks | apps/orchestrator/src/workflows/post-workflows/post.workflow.v1.0.1.ts:262-265 | Each internal plug becomes one internal task with the same delay and integration, in order. |
| PlugQueue.SortByDelay | apps/orchestrator/src/workflows/post-workflows/post.workflow.v1.0.1.ts:295-298 | The result is sorted by delay and is a permutation of the input. |
| PlugQueue.InsertSorted | apps/orchestrator/src/workflows/post-workflows/post.workflow.v1.0.1.ts:295-298 | Inserting keeps a sorted list sorted and adds exactly the inserted task. |
| PlugQueue.InsertStable | apps/orchestrator/src/workflows/post-workflows/post.workflow.v1.0.1.ts:295-298 | Inserting puts the new task before the tasks of its delay, so the input order behind it is kept. |
| PlugQueue.SortIsStable | apps/orchestrator/src/workflows/post-workflows/post.workflow.v1.0.1.ts:295-298 | For every delay, the sorted list holds the tasks of that delay in their original order, as lodash `sortBy` does. |
| PlugQueue.RepeatQueuedIffRecurring | apps/orchestrator/src/workflows/post-workflows/post.workflow.v1.0.1.ts:283-292 | The queue holds a repeat task if and only if `intervalInDays != 0`. Its delay is `intervalInDays * 86400000` minus the elapsed time. |
| PlugQueue.RepeatsOfGathered | apps/orchestrator/src/workflows/post-workflows/post.workflow.v1.0.1.ts:283-296 | There is exactly one repeat task when the post recurs and none otherwise, and it has that delay. |
| PlugQueue.NoRepeatBeforeSorting | apps/orchestrator/src/workflows/post-workflows/post.workflow.v1.0.1.ts:262-280 | Neither plug list contributes a repeat task. |
| PlugQueue.PruneSamePlug | apps/orchestrator/src/workflows/post-workflows/post.workflow.v1.0.1.ts:352-364 | The reverse splice loop leaves exactly the list without the tasks of that `plugId`, in order. |
| PlugQueue.MatchingIndices | apps/orchestrator/src/workflows/post-workflows/post.workflow.v1.0.1.ts:352-359 | The `reduce` collects, in increasing order, exactly the indices of the tasks with that `plugId`. |
| PlugQueue.WithoutPlug | apps/orchestrator/src/workflows/post-workflows/post.workflow.v1.0.1.ts:352-364 | Pruning never lengthens the list. |
| PlugQueue.WithoutPlugRemovesExactly | apps/orchestrator/src/workflows/post-workflows/post.workflow.v1.0.1.ts:352-364 | Pruning removes every task of the plug and keeps every other task as often as it occurred. |
| PlugQueue.WithoutPlugKeepsOthers | apps/orchestrator/src/workflows/post-workflows/post.workflow.v1.0.1.ts:352-364 | A list without tasks of the plug is unchanged. |
| PlugQueue.WithoutPlugConcat | apps/orchestrator/src/workflows/post-workflows/post.workflow.v1.0.1.ts:352-364 | Pruning a concatenation prunes each part. |
| PlugQueue.WithoutPlugSorted | apps/orchestrator/src/workflows/post-workflows/post.workflow.v1.0.1.ts:352-364 | Pruning keeps the queue sorted by delay. |
| Middleware.Decide | apps/frontend/src/middleware.ts:15-158 | The request passes through if and only if one of three holds: the path is static; or the user is signed in, off `/auth` and `/`, and not invited; or the user is anonymous, on `/auth` but not logging out, and not invited. A pass-through carries the chosen language when one was found. A redirect sets at most one cookie. |
| Middleware.StaticPathsPassThrough | apps/frontend/src/middleware.ts:35-44 | Paths under `/uploads/`, `/p/`, `/icons/`, `/_next/` and `/api/` pass through untouched. |
| Middleware.ModalNeedsLogin | apps/frontend/src/middleware.ts:46-49 | An anonymous `/modal/` request goes to `/auth/login-required`. |
| Middleware.LogoutClearsAuth | apps/frontend/src/middleware.ts:51-67 | `/auth/logout` goes to `/auth/login` and expires the `auth` cookie (`maxAge: -1`), signed in or not. |
| Middleware.AnonymousVisitorsGoToAuth | apps/frontend/src/middleware.ts:71-86 | An anonymous request off `/auth` goes to `/auth` with its query. A `google` in the URL adds `provider=GOOGLE`; otherwise a `settings` in the URL adds `GENERIC` or `GITHUB` by the flag. |
| Middleware.ProviderNames | apps/frontend/src/middleware.ts:79-82 | The provider names upper-case to `GOOGLE`, `GENERIC` and `GITHUB`. |
| Middleware.SignedInUsersLeaveAuth | apps/frontend/src/middleware.ts:88-93 | A signed-in request on `/auth` (other than logout) goes to `/` with the same query. |
| Middleware.InvitationRemembered | apps/frontend/src/middleware.ts:95-111 | An anonymous invited request on `/auth` goes to `/` and stores the `org` cookie for 15 minutes. |
| Middleware.InvitationAccepted | apps/frontend/src/middleware.ts:113-157 | A signed-in invited request joins the organization and goes to `/`. The query's keys are exactly the request's, minus `org`, plus `added`; `added` is `true` and every other key keeps its value. A `showorg` cookie is set for 15 minutes if and only if an id came back. A failed join goes to `/auth/logout`. |
| Middleware.RootGoesToDashboard | apps/frontend/src/middleware.ts:146-151 | A signed-in request for `/` goes to `/launches` or `/analytics` by `IS_GENERAL`. |
| Middleware.JoinOrgOnlyWhenInvited | apps/frontend/src/middleware.ts:113-121 | Without an invitation and a signed-in user, the join-org call is never made: the decision does not depend on its reply. |
| Middleware.AnonymousStaysOnPublicPages | apps/frontend/src/middleware.ts:71-86 | An anonymous request passes through only on a static path or under `/auth`. |
| Cookies.GetCookie | apps/frontend/src/components/agents/agent.chat.tsx:39-45 | Without a document there is no cookie. A cookie found is non-empty and contains no `;`. |
| Cookies.CookieFound | apps/frontend/src/components/agents/agent.chat.tsx:39-45 | When `name=` occurs exactly once, the value up to the next `;` is returned. |
| Cookies.FirstCookieFound | apps/frontend/src/components/agents/agent.chat.tsx:39-45 | The first cookie of the string is found as well: the `'; '` prefix makes it match. |
| Cookies.CookieMissing | apps/frontend/src/components/agents/agent.chat.tsx:39-45 | When `name=` does not occur, the result is `null`. |
| Cookies.CookieAmbiguous | apps/frontend/src/components/agents/agent.chat.tsx:39-45 | When `name=` occurs twice, `split` gives three parts and the result is `null`. |
| Cookies.EmptyCookieIsNull | apps/frontend/src/components/agents/agent.chat.tsx:39-45 | An empty value gives `null` (the `\|\| null`). |
| Cookies.WithCookieHeader | apps/frontend/src/components/agents/agent.chat.tsx:53-58 | A cookie is added under its name only when present and when no header of that name exists. Existing headers are kept. |
| Cookies.AuthorizedOptions | apps/frontend/src/components/agents/agent.chat.tsx:48-67 | The request always sends credentials and keeps its other options and headers. It gains exactly an `auth` and a `showorg` header for the cookies present, each with the cookie's value, unless that header was already set. |
| Strings.IndexOfFrom | apps/frontend/src/middleware.ts:74 | The index found is an occurrence at or after the start, and no earlier one exists. No index means no occurrence. |
| Strings.Split | apps/frontend/src/components/agents/agent.chat.tsx:42 | `split` gives at least one part, none containing the separator, and joining the parts rebuilds the string. |
| Strings.SplitWithUniqueOccurrence | apps/frontend/src/components/agents/agent.chat.tsx:42-43 | One occurrence splits into the text before it and the text after it. |
| Strings.SplitWithTwoOccurrences | apps/frontend/src/components/agents/agent.chat.tsx:42-43 | Two disjoint occurrences give at least three parts. |
| Strings.SplitWithOccurrence | apps/frontend/src/components/agents/agent.chat.tsx:42-43 | An occurrence gives at least two parts. |
| Strings.SplitWithoutOccurrence | apps/frontend/src/components/agents/agent.chat.tsx:42-44 | No occurrence gives the string itself as the only part. |
| Strings.FirstFieldBeforeSemicolon | apps/frontend/src/components/agents/agent.chat.tsx:43 | `split(';').shift()` of a value followed by `;…` is the value. |
| Strings.AsciiUpper | apps/frontend/src/middleware.ts:82 | `toUpperCase` keeps the length and maps exactly the lower-case ASCII letters to upper case. |

`getCookie` and `createAuthFetch` appear three times in the repository:
- `apps/frontend/src/components/agents/agent.chat.tsx` (39-67);
- `apps/frontend/src/components/preview/preview.wrapper.tsx` (13-41), character for character the same;
- `apps/frontend/src/components/layout/fetch.interceptor.tsx` (15-20), the same `getCookie` without a `typeof document` guard; that file tests `typeof window` at its line 12 instead.

One model covers all three.

## Left out

- **Temporal's activity options.** The retry policy (3 attempts, 2-minute interval) and the timeouts of the activity proxy sit below the workflow. An activity reply in the model is the reply after those retries.
- **The `poke` signal and the `startTime`/`new Date()` wall clock.** The signal handler's flag is never read. The clock appears only as the inputs `msUntilPublish` and `elapsedMilliseconds`.
- **Failures of activities outside any `try`.** These are `getPostsList`, `isCommentable`, `refreshToken`, `changeState`, the info and failure notifications, `sendWebhooks`, `internalPlugs`, `globalPlugs`, `getIntegrationById` and `startChild`. The model takes them to succeed; a failure there would fail the whole run.
- **Notification texts and `console.log`/`console.error` output.** Notifications are kept as their recipient and kind (info, failure, success with the release URL).
- **The contents of the `ERROR` state change.** Its error object and post list are kept as the post id and the failure class.
- **`JSON.parse(post.settings)`.** The settings reach the `internalPlugs` oracle as the raw string. A malformed settings string makes `JSON.parse` throw at line 264, outside any `try`, after the webhooks were sent; that crash is not one of the model's outcomes.
- **A missing `post.integration`.** The model takes it to be present: the disabled/refresh gate reads it through `?.`, but the publish loop dereferences it.
- **The `makeId(10)` random suffix of the child's workflow id.** Only its prefix `post_<id>_` is modelled. The search attribute is kept as the post id.
- **The plug activities' own argument shapes.** An internal plug is its delay, integration id and an opaque payload. A global plug is its delay, `plugId`, `totalRuns` and payload. Internal plugs and the repeat post carry no `plugId`, and a global plug is taken to have one, so the same-plug check of the prune loop can only match global firings; `SamePlug` is stated on global tasks.
- **Middleware cookie options.** `path`, `secure`, `httpOnly`, `sameSite`, `domain` and `getCookieUrlFromDomain` are not modelled. Only each cookie's name, value and lifetime are kept.
- **Middleware language detection.** `acceptLanguage.get` is not modelled. Its result is the input `language`.
- **Middleware query parameters.** Multi-valued query parameters are not modelled. A query is a map from a name to its first value.
- **Middleware `internalFetch`.** It is the `joinOrg` oracle, whose reply is an id, no id, or a thrown error.
- **The middleware `config.matcher`.** It decides which requests reach the middleware at all, and is not modelled.
- **Header case.** `Headers` in `createAuthFetch` compares names case-insensitively. The model uses a map with exact names, so a header `Auth` would count as different from `auth`. The `fetch` call itself and the rest of the three components are not modelled.
- **The rest of the frontend and orchestrator.** The upload providers, the image generation tool, the Temporal registration, `custom.fetch.tsx` and the UI components around the three cookie helpers are not part of this model.
- PostWorkflow.PostWorkflowV101: the drain of the plug queue (the order `Taken`, the per-task sleeps and runs, `Drained`) is stated on FollowUp, RunPlugQueue and DrainPlugQueue. The top level only restates its consequences for the webhooks and the repeat child; carrying the drain itself through the top level makes the proof too costly.
- PostWorkflow.Publication: like the top level, it restates only the webhooks and the repeat child of the follow-up work, not the drain stated on FollowUp.
- PostWorkflow.Complete: the same holds for the completed branch of Publication, which it carries out.
- Cookies.GetCookie: the function's own contract says a found cookie is non-empty and contains no `;`. The lemmas beside it (CookieFound, CookieMissing, CookieAmbiguous, EmptyCookieIsNull) state which value is found.
