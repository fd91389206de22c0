# 3D Streaming Toolkit cloud deployment, modelled in Dafny

The 3D Streaming Toolkit's cloud deployment brings up Azure Batch pools for a
streaming service. A Linux TURN pool relays traffic. A Windows rendering pool runs
the streaming servers, one task per rendering node. An orchestrator grows and
shrinks the rendering capacity from the session reports of the signaling server.
This project models the C# code that drives those deployments:

- the web API's `BatchService` (settings, configuration check, capacity arithmetic,
  pool and node waiters, pool and job commits, task monitor) and its deployment
  controller (`api/create`, `api/deletePool`);
- the web API's orchestrator controller: the report action, the downscale timer
  and its Elapsed handlers;
- the function app's `BatchService` (pool commits, rendering task submission, task
  monitor) and its deployment controller (`create`, `deleteBatchPool`);
- the function app's older `Cloud3DSTKApiController`;
- the pool web app's `BatchApiController`, with its rollback of a failed Linux job.

The Azure Batch service is an abstract provider (`Batch.BatchClient`). It holds the
pool listing in order and a log of every mutating request issued to it. What the
service answers is given to the model as arguments:

- the answer to each pool or job commit;
- the states that successive refreshes of a node or pool report, each with the
  stopwatch reading at that refresh;
- whether a task monitor timed out, and each task's execution result.

Each controller action is specified by a function that returns its reply, the
requests it sends in order, and the pools it adds to the listing. The imperative
methods are proved equal to those functions. The lemmas state what the source
promises about the functions: check order, create-only-if-absent, one task per
node, rollback order, and the ready-node count.

Files:

- `csharp.dfy`: 32-bit arithmetic, C# division, `int.TryParse`, formatting, and
  configuration lookup.
- `models.dfy`: messages, replies, and the autoscaling status.
- `batch.dfy`: the provider.
- `requests.dfy`: request bodies and the shared delete action.
- `web_api_service.dfy`, `web_api_deploy.dfy`, `orchestrator.dfy`: the web API.
- `function_batch_service.dfy`, `function_batch_deploy.dfy`, `legacy_deploy.dfy`,
  `batch_pool_web_app.dfy`: the function app and the pool web app.

## Model

| member | source | states |
|---|---|---|
| CSharp.Wrap32 | web-api/Cloud3DSTKDeployment/Services/BatchService.cs:129 | unchecked int arithmetic: the result is a 32-bit int congruent to the exact value modulo 2^32, and equals it when it is in range |
| CSharp.Wrap32Congruent | web-api/Cloud3DSTKDeployment/Services/BatchService.cs:129 | two values that differ by a multiple of 2^32 wrap to the same int |
| CSharp.Wrap32Product | web-api/Cloud3DSTKDeployment/Services/BatchService.cs:129 | wrapping after each of the two products gives the same int as one wrap of the exact triple product |
| CSharp.TruncDiv | web-api/Cloud3DSTKDeployment/Services/BatchService.cs:144 | C# `/` on int: the magnitude is the quotient of the magnitudes, non-negative when the signs agree, non-positive when they differ, and the ordinary quotient for a non-negative dividend and a positive divisor |
| CSharp.ConfigValue | web-api/Cloud3DSTKDeployment/Services/BatchService.cs:71-86 | `configuration[key]` is null exactly when the key is absent, and otherwise the stored text |
| CSharp.DigitValue | function-batch/Cloud3DSTKDeploymentAPI/Services/BatchService.cs:236-245 | a decimal digit's value is below 10 |
| CSharp.DigitChar | function-batch/Cloud3DSTKDeploymentAPI/Services/BatchService.cs:236-245 | the digit character for d is a digit and reads back as d |
| CSharp.NatDigits | function-batch/Cloud3DSTKDeploymentAPI/Services/BatchService.cs:236-245 | a non-negative int renders as a non-empty string of digits |
| CSharp.NatDigitsValue | function-batch/Cloud3DSTKDeploymentAPI/Services/BatchService.cs:236-245 | the rendered digits read back as the number |
| CSharp.FormatInt | function-batch/Cloud3DSTKDeploymentAPI/Services/BatchService.cs:236-245 | an int always formats as a non-empty string |
| CSharp.TrimStart | web-api/Cloud3DSTKDeployment/Services/BatchService.cs:79-83 | trimming never lengthens the text, and a non-empty result does not start with white space |
| CSharp.TrimEnd | web-api/Cloud3DSTKDeployment/Services/BatchService.cs:79-83 | trimming never lengthens the text, and a non-empty result does not end with white space |
| CSharp.ParseInt32 | web-api/Cloud3DSTKDeployment/Services/BatchService.cs:79-83 | a successful parse yields a value in the 32-bit range |
| CSharp.ParseFormatRoundTrip | function-batch/Cloud3DSTKDeploymentAPI/Services/BatchService.cs:236-245 | every 32-bit int that is formatted and parsed back gives itself |
| CSharp.TryParseInt | web-api/Cloud3DSTKDeployment/Services/BatchService.cs:79-83 | `int.TryParse` succeeds exactly when the string is present and parses; on success it writes the parsed value, otherwise 0 |
| CSharp.ParsedSetting | web-api/Cloud3DSTKDeployment/Services/BatchService.cs:79-83 | the field `TryParse` leaves behind is a 32-bit int, 0 for a missing key (the initialiser is lost), and the parsed value otherwise |
| Batch.OfferOf | web-api/Cloud3DSTKDeployment/Services/BatchService.cs:332-333 | a pool gets the "WindowsServer" image offer exactly when it is a rendering pool, so a TURN pool never gets it |
| Batch.FindPool | web-api/Cloud3DSTKDeployment/Services/BatchService.cs:114-118 | `FirstOrDefault(p => p.Id == id)`: null exactly when no listed pool has the id; otherwise the first listed pool with that id |
| Batch.FindPoolWellFormed | web-api/Cloud3DSTKDeployment/Services/BatchService.cs:114-118 | a pool found in a well-formed listing is well-formed |
| Batch.FindPoolAppend | function-batch/Cloud3DSTKDeploymentAPI/Controllers/Cloud3DSTKController.cs:77-83 | adding pools to the end of the listing keeps an existing match, and otherwise the lookup falls to the added pools |
| Batch.CommitOutcome | web-api/Cloud3DSTKDeployment/Services/BatchService.cs:202-248 | a commit succeeds exactly when the service allocates the pool; the pool then has the requested id, the role's image, and the allocated nodes; a refusal carries the service's error |
| Batch.AddedBy | web-api/Cloud3DSTKDeployment/Services/BatchService.cs:234 | a committed pool joins the listing, and a refused commit adds nothing |
| Batch.BatchClient.constructor | web-api/Cloud3DSTKDeployment/Services/BatchService.cs:114-118 | the client starts with the given listing and no requests issued |
| Batch.BatchClient.Issue | web-api/Cloud3DSTKDeployment/Services/BatchService.cs:193 | a request is logged once, last, and the listing is unchanged |
| Batch.BatchClient.CommitPool | web-api/Cloud3DSTKDeployment/Services/BatchService.cs:234 | the pool creation is logged even when refused; the listing grows by exactly the committed pool |
| Batch.BatchClient.CommitJob | web-api/Cloud3DSTKDeployment/Services/BatchService.cs:506 | the job creation is logged; the error is returned exactly when the service refuses |
| Requests.DeletePoolEffect | web-api/Cloud3DSTKDeployment/Controllers/Cloud3DSTKController.cs:164-191 | the delete action answers, in order: empty body, then missing pool id, then unknown pool id, and sends nothing on any of them; it answers OK exactly when it sends a request |
| Requests.DeleteOnlyListedPool | function-batch/Cloud3DSTKDeploymentAPI/Controllers/Cloud3DSTKController.cs:107-134 | a delete request is sent only for a non-empty id of a listed pool, and exactly once |
| WebApiService.WindowsPoolCount | web-api/Cloud3DSTKDeployment/Services/BatchService.cs:127 | the count never exceeds the listing, and is 0 exactly when no listed pool has the Windows offer |
| WebApiService.WindowsPoolCountAppend | web-api/Cloud3DSTKDeployment/Services/BatchService.cs:127 | the count over two listings is the sum of their counts |
| WebApiService.CapacityVerdict | web-api/Cloud3DSTKDeployment/Services/BatchService.cs:137-145 | a threshold of int.MaxValue answers false without using the capacity; capacity 0 throws; `int.MinValue / -1` overflows; fewer clients than capacity compare 0 with the threshold; an in-range product compares `clients / capacity * 100` |
| WebApiService.IntendedCapacityVerdict | web-api/Cloud3DSTKDeployment/Services/BatchService.cs:137-145 | the same switch-off and zero-capacity failure; for a positive capacity, true exactly when the exact percentage of capacity in use exceeds the threshold |
| WebApiService.PercentageComparison | web-api/Cloud3DSTKDeployment/Services/BatchService.cs:144 | for a positive capacity, comparing `clients * 100` with `threshold * capacity` is the same as comparing the exact percentage with the threshold |
| WebApiService.TruncatedPercentage | web-api/Cloud3DSTKDeployment/Services/BatchService.cs:144 | 90 clients on capacity 100 with threshold 80: the check as written answers false, the intended comparison answers true |
| WebApiService.NodeWait | web-api/Cloud3DSTKDeployment/Services/BatchService.cs:256-282 | the node waiter stops at the first refresh that is past half an hour, in a failure state, or in the desired state; it reports ready exactly when that refresh did not give up; a desired state from the failure set is never reported ready |
| WebApiService.NodeWaitStopsAt | web-api/Cloud3DSTKDeployment/Services/BatchService.cs:264-279 | the node waiter's outcome and refresh count are fixed by the first refresh at which it stops |
| WebApiService.PoolWait | web-api/Cloud3DSTKDeployment/Services/BatchService.cs:290-311 | the pool waiter refreshes at least once and stops at the first refresh past the limit or in the desired state; it reports ready exactly when that refresh was within the limit |
| WebApiService.PoolWaitStopsAt | web-api/Cloud3DSTKDeployment/Services/BatchService.cs:295-310 | the pool waiter's outcome and refresh count are fixed by the first refresh at which it stops |
| WebApiService.ErrorValuesText | web-api/Cloud3DSTKDeployment/Services/BatchService.cs:236-245 | the error text is empty exactly when there are no error values, and has at least one character per value |
| WebApiService.ErrorValuesTextAppend | web-api/Cloud3DSTKDeployment/Services/BatchService.cs:236-245 | the text of a list of values is the text of its parts, in order |
| WebApiService.JoinErrorValues | web-api/Cloud3DSTKDeployment/Services/BatchService.cs:236-245 | the `stringError` loop produces every error value, in order, each followed by one space |
| WebApiService.CreatedPoolOf | web-api/Cloud3DSTKDeployment/Services/BatchService.cs:399-410 | a create call returns the committed pool exactly when the commit succeeded, and otherwise the joined error values |
| WebApiService.BatchService.constructor | web-api/Cloud3DSTKDeployment/Services/BatchService.cs:71-86 | every integer setting is what `int.TryParse` leaves, 0 when the key is missing; the signaling URL and the vnet are the raw configuration values |
| WebApiService.IntendedSetting | web-api/Cloud3DSTKDeployment/Services/BatchService.cs:79-83 | a setting read as the initial values intend: the initial value when the key is missing or does not parse, the parsed value otherwise, and then the same value `int.TryParse` gives |
| WebApiService.BatchService.OmittedPortPassesSignalingCheck | web-api/Cloud3DSTKDeployment/Services/BatchService.cs:83 | with no port key and a non-empty URL, the port is 0 and the signaling check passes, so no "signaling not found" answer |
| WebApiService.BatchService.OmittedThresholdEnablesScaling | web-api/Cloud3DSTKDeployment/Services/BatchService.cs:82 | with no threshold key the threshold is 0, and with no Windows pool listed the capacity check divides by zero instead of answering false |
| WebApiService.BatchService.IntendedOmittedPortRefused | web-api/Cloud3DSTKDeployment/Services/BatchService.cs:154 | with the port read as intended, a missing port key answers "signaling not found" |
| WebApiService.BatchService.IntendedOmittedThresholdSwitchesOff | web-api/Cloud3DSTKDeployment/Services/BatchService.cs:139-142 | with the threshold read as intended, a missing threshold key switches the capacity check off: it answers false |
| WebApiService.BatchService.HasValidConfiguration | web-api/Cloud3DSTKDeployment/Services/BatchService.cs:151-172 | the first failing check's message: signaling (empty URL or port int.MaxValue), then node counts, then users per node; "" exactly when all three pass |
| WebApiService.BatchService.GetMaxRenderingSlotsCapacity | web-api/Cloud3DSTKDeployment/Services/BatchService.cs:124-130 | Windows pools × rendering nodes × users per node, wrapped to 32 bits; the exact product when it fits; 0 when no pool is a Windows pool |
| WebApiService.BatchService.ApproachingRenderingCapacity | web-api/Cloud3DSTKDeployment/Services/BatchService.cs:137-145 | the capacity verdict over the listed capacity: false when the threshold is int.MaxValue, and a division by zero when no Windows pool is listed |
| WebApiService.BatchService.ResizeTurnPool | web-api/Cloud3DSTKDeployment/Services/BatchService.cs:180-195 | a resize is sent, once, exactly when the pool is listed and its dedicated count differs from the request; the answer says whether one was sent |
| WebApiService.BatchService.CreateTurnPool | web-api/Cloud3DSTKDeployment/Services/BatchService.cs:202-248 | commits an Ubuntu pool of the configured TURN node count and answers the pool or the joined error text; the listing gains exactly the committed pool |
| WebApiService.BatchService.CreateRenderingPool | web-api/Cloud3DSTKDeployment/Services/BatchService.cs:318-411 | commits a Windows pool of the configured rendering node count and answers the pool or the joined error text; the listing gains exactly the committed pool |
| WebApiService.BatchService.AwaitDesiredNodeState | web-api/Cloud3DSTKDeployment/Services/BatchService.cs:256-282 | the do-while loop's answer and refresh count are the node waiter's |
| WebApiService.BatchService.AwaitDesiredPoolState | web-api/Cloud3DSTKDeployment/Services/BatchService.cs:290-311 | the do-while loop's answer and refresh count are the pool waiter's |
| WebApiService.BatchService.MonitorTasks | web-api/Cloud3DSTKDeployment/Services/BatchService.cs:459-488 | terminates the job exactly once, with the failure message on a timeout (answering false) and the success message otherwise (answering true) |
| WebApiService.BatchService.CreateJobAsync | web-api/Cloud3DSTKDeployment/Services/BatchService.cs:496-513 | "" once the job is committed, the response's reason phrase when refused; the job creation is logged either way |
| WebApiDeploy.ReadyCount | web-api/Cloud3DSTKDeployment/Controllers/Cloud3DSTKController.cs:133-152 | the ready count is within [0, node count] |
| WebApiDeploy.Removals | web-api/Cloud3DSTKDeployment/Controllers/Cloud3DSTKController.cs:136-151 | one removal per node that does not reach Idle, all for the rendering pool: removals plus ready nodes make the node count |
| WebApiDeploy.ReadyCountAll | web-api/Cloud3DSTKDeployment/Controllers/Cloud3DSTKController.cs:133-152 | the ready count equals the node count exactly when every node reaches Idle |
| WebApiDeploy.PrefixStep | web-api/Cloud3DSTKDeployment/Controllers/Cloud3DSTKController.cs:136-151 | one more pass of the loop adds exactly that node's count or removal |
| WebApiDeploy.TurnStage | web-api/Cloud3DSTKDeployment/Controllers/Cloud3DSTKController.cs:80-97 | a listed TURN pool is used as is, with no request; otherwise the one request is its creation, and the stage goes on exactly when the pool is allocated and reaches Steady, with that Ubuntu pool listed; a refusal answers 400 with the joined error values and lists nothing; an allocated pool that never reaches Steady answers 400 "failed to create the TURN pool" |
| WebApiDeploy.RenderingStage | web-api/Cloud3DSTKDeployment/Controllers/Cloud3DSTKController.cs:117-154 | the rendering pool's creation comes first and only node removals follow; OK exactly when the pool is allocated and reaches Steady, and then the Windows pool is listed and the removals are those of its non-Idle nodes; a refusal answers 400 with the joined error values, sends nothing more and lists nothing; an allocated pool that never reaches Steady answers 500 "failed to create the rendering pool" with no removals |
| WebApiDeploy.DeployEffect | web-api/Cloud3DSTKDeployment/Controllers/Cloud3DSTKController.cs:80-154 | a TURN stage that finishes gives the answer; a TURN pool whose first node is missing or never reaches Idle answers 500 "TURN server invalid" with only the TURN stage's requests; otherwise the answer is the rendering stage's, after the TURN stage's requests; OK only when the rendering pool was allocated and reached Steady |
| WebApiDeploy.ValidationMessagesNotBlank | web-api/Cloud3DSTKDeployment/Controllers/Cloud3DSTKController.cs:65-71 | no configuration message is blank, so each one stops the create action |
| WebApiDeploy.PostChecksConfigurationFirst | web-api/Cloud3DSTKDeployment/Controllers/Cloud3DSTKController.cs:65-71 | a configuration problem is answered 400 with its message, and nothing is requested |
| WebApiDeploy.PostRejectsExistingRenderingPool | web-api/Cloud3DSTKDeployment/Controllers/Cloud3DSTKController.cs:73-78 | a listed rendering pool id is answered 400 "already exists", and nothing is requested |
| WebApiDeploy.DeployCreatesTurnPoolOnlyIfAbsent | web-api/Cloud3DSTKDeployment/Controllers/Cloud3DSTKController.cs:80-97 | past the checks, the TURN pool is created exactly when it is not listed, and then as the first request |
| WebApiDeploy.PostCreatesTurnPoolOnlyIfAbsent | web-api/Cloud3DSTKDeployment/Controllers/Cloud3DSTKController.cs:65-97 | the TURN pool is created exactly when the configuration is usable, the rendering id is free and the TURN id is not listed, and then first |
| WebApiDeploy.PostCreatesRenderingPoolOnlyAfterTurnNode | web-api/Cloud3DSTKDeployment/Controllers/Cloud3DSTKController.cs:99-118 | the rendering pool is created exactly when the checks pass, the TURN stage succeeds and the TURN pool's first node reaches Idle |
| WebApiDeploy.DeployAddsRenderingPoolLast | web-api/Cloud3DSTKDeployment/Controllers/Cloud3DSTKController.cs:117-130 | a successful deployment adds the Windows rendering pool, with its allocated nodes, last to the listing |
| WebApiDeploy.DeployEndsWithRemovals | web-api/Cloud3DSTKDeployment/Controllers/Cloud3DSTKController.cs:117-154 | a successful deployment's requests end with the rendering pool's creation followed by the removals of its non-Idle nodes |
| WebApiDeploy.PostSuccess | web-api/Cloud3DSTKDeployment/Controllers/Cloud3DSTKController.cs:53-155 | an OK create passed the configuration and rendering-id checks, and its effect is the deployment's |
| WebApiDeploy.Cloud3DSTKController.constructor | web-api/Cloud3DSTKDeployment/Controllers/Cloud3DSTKController.cs:41-44 | the controller holds the batch service built from its configuration |
| WebApiDeploy.Cloud3DSTKController.AwaitRenderingNodes | web-api/Cloud3DSTKDeployment/Controllers/Cloud3DSTKController.cs:132-152 | the `readyNodes` loop ends with the ready count and has sent exactly the removals of the non-Idle nodes, in node order |
| WebApiDeploy.Cloud3DSTKController.AwaitRenderingPool | web-api/Cloud3DSTKDeployment/Controllers/Cloud3DSTKController.cs:126-154 | a rendering pool that does not reach Steady answers 500 and sends nothing more; otherwise OK after the node removals |
| WebApiDeploy.Cloud3DSTKController.DeployRenderingPool | web-api/Cloud3DSTKDeployment/Controllers/Cloud3DSTKController.cs:117-154 | reply, requests and listing are the rendering stage's |
| WebApiDeploy.Cloud3DSTKController.ObtainTurnPool | web-api/Cloud3DSTKDeployment/Controllers/Cloud3DSTKController.cs:80-97 | the pool, reply, requests and listing are the TURN stage's |
| WebApiDeploy.Cloud3DSTKController.AwaitTurnNode | web-api/Cloud3DSTKDeployment/Controllers/Cloud3DSTKController.cs:99-113 | true exactly when the TURN pool has a node and its first node reaches Idle |
| WebApiDeploy.Cloud3DSTKController.DeployPools | web-api/Cloud3DSTKDeployment/Controllers/Cloud3DSTKController.cs:80-154 | reply, requests and listing are the deployment's, from the TURN stage on |
| WebApiDeploy.Cloud3DSTKController.Post | web-api/Cloud3DSTKDeployment/Controllers/Cloud3DSTKController.cs:53-155 | reply, requests and listing are the create action's |
| WebApiDeploy.Cloud3DSTKController.DeletePool | web-api/Cloud3DSTKDeployment/Controllers/Cloud3DSTKController.cs:164-191 | reply and requests are the delete action's; the listing is unchanged |
| FunctionBatchService.PoolCreationOutcome | function-batch/Cloud3DSTKDeploymentAPI/Services/BatchService.cs:99-115 | true exactly when committed, false exactly when refused with `PoolExists`, and any other refusal rethrown with its code |
| FunctionBatchService.RenderingArguments | function-batch/Cloud3DSTKDeploymentAPI/Services/BatchService.cs:236-245 | the deploy script gets exactly eight arguments |
| FunctionBatchService.RenderingArgumentsReadBack | function-batch/Cloud3DSTKDeploymentAPI/Services/BatchService.cs:236-245 | the first argument is `turn:` + the TURN node's address + `:3478`, then the fixed user name and password; the fourth is the signaling URL, or "" when none is given; the fifth to seventh parse back to the signaling port, 5000 and the capacity, and the last is the server path |
| FunctionBatchService.RenderingSubmissionOutcome | function-batch/Cloud3DSTKDeploymentAPI/Services/BatchService.cs:220-260 | false exactly when the TURN pool is not listed, a null dereference exactly when it has no nodes, and true otherwise |
| FunctionBatchService.RenderingSubmissionCalls | function-batch/Cloud3DSTKDeploymentAPI/Services/BatchService.cs:235-257 | a submission sends a request exactly when it answers true: one request to the job with one task whose id is "StartRendering" and whose arguments point at the listed TURN pool's first node, with the signaling server and capacity given |
| FunctionBatchService.BatchService.constructor | function-batch/Cloud3DSTKDeploymentAPI/Services/BatchService.cs:35-46 | the service holds the Batch client it opened |
| FunctionBatchService.BatchService.CreateTurnPool | function-batch/Cloud3DSTKDeploymentAPI/Services/BatchService.cs:69-116 | logs the Linux pool creation and answers the mapped commit outcome; the listing gains exactly the committed pool |
| FunctionBatchService.BatchService.CreateRenderingPool | function-batch/Cloud3DSTKDeploymentAPI/Services/BatchService.cs:124-208 | logs the Windows pool creation and answers the mapped commit outcome; the listing gains exactly the committed pool |
| FunctionBatchService.BatchService.AddRenderingTasksAsync | function-batch/Cloud3DSTKDeploymentAPI/Services/BatchService.cs:220-260 | answers the submission outcome and sends exactly the submission's requests |
| FunctionBatchService.BatchService.MonitorTasks | function-batch/Cloud3DSTKDeploymentAPI/Services/BatchService.cs:269-332 | terminates the job exactly once, with the failure message on a timeout and the success message otherwise; true exactly when there was no timeout and no task's result is Failure |
| FunctionBatchService.BatchService.CreateJobAsync | function-batch/Cloud3DSTKDeploymentAPI/Services/BatchService.cs:340-349 | logs the job creation; an exception escapes exactly when the service refuses it |
| FunctionBatchService.BatchService.DeletePoolAsync | function-batch/Cloud3DSTKDeploymentAPI/Services/BatchService.cs:366-369 | logs one pool deletion; the listing is unchanged |
| FunctionBatchDeploy.DeploymentCheck | function-batch/Cloud3DSTKDeploymentAPI/Controllers/Cloud3DSTKController.cs:59-75 | the first failing body check's message: signaling URL and port, then node counts, then users per node; "" exactly when all three pass |
| FunctionBatchDeploy.OmittedMaxUsersRefused | function-batch/Cloud3DSTKDeploymentAPI/Controllers/Cloud3DSTKController.cs:56-75 | a body without users per node always fails the checks, with the max-user message once the others pass |
| FunctionBatchDeploy.Repeat | function-batch/Cloud3DSTKDeploymentAPI/Controllers/Cloud3DSTKController.cs:89-92 | n copies of a request: length n, every element that request |
| FunctionBatchDeploy.SubmittedTasksAppend | function-batch/Cloud3DSTKDeploymentAPI/Controllers/Cloud3DSTKController.cs:88-94 | the tasks submitted by two runs of requests are those of each, in order |
| FunctionBatchDeploy.SubmittedTasksRepeat | function-batch/Cloud3DSTKDeploymentAPI/Controllers/Cloud3DSTKController.cs:89-92 | n submissions of a one-task request submit that task n times |
| FunctionBatchDeploy.TurnStep | function-batch/Cloud3DSTKDeploymentAPI/Controllers/Cloud3DSTKController.cs:77-81 | a listed TURN pool means no request; otherwise its creation is the one request; an exception escapes exactly when the creation is refused with a code other than `PoolExists` |
| FunctionBatchDeploy.SubmissionStep | function-batch/Cloud3DSTKDeploymentAPI/Controllers/Cloud3DSTKController.cs:89-92 | every request is a task submission; an exception sends nothing; any submission means the TURN pool has a node and submits the rendering task once per rendering node; it throws, always a null dereference, exactly when there is at least one pass and the TURN pool is listed without nodes, and it sends requests exactly when there is a pass and the TURN pool has a node |
| FunctionBatchDeploy.SubmissionOf | function-batch/Cloud3DSTKDeploymentAPI/Services/BatchService.cs:247-257 | a successful submission is one request to the rendering job carrying the rendering task |
| FunctionBatchDeploy.RenderingTask | function-batch/Cloud3DSTKDeploymentAPI/Services/BatchService.cs:235-247 | the rendering task's id is always "StartRendering" |
| FunctionBatchDeploy.JobStep | function-batch/Cloud3DSTKDeploymentAPI/Controllers/Cloud3DSTKController.cs:88-94 | the job's creation is the first request and no pool is created; no exception escapes exactly when the job is accepted and the submissions do not throw; a refused job throws its Batch error, and an accepted one throws what the submissions throw |
| FunctionBatchDeploy.RenderingStep | function-batch/Cloud3DSTKDeploymentAPI/Controllers/Cloud3DSTKController.cs:83-95 | a listed rendering pool means no request; otherwise the rendering pool's creation comes first; no TURN pool is ever created here; for an unlisted pool, an exception escapes exactly when the commit is refused with a code other than `PoolExists`, the job is refused, or there is a pass and the TURN pool has no nodes, and the exception is in that order the commit's Batch error, the job's Batch error or a null dereference |
| FunctionBatchDeploy.PostValidatesFirst | function-batch/Cloud3DSTKDeploymentAPI/Controllers/Cloud3DSTKController.cs:45-75 | nothing is requested exactly when the body is null, fails a check, or names two listed pools; a failing check answers 400 with its message |
| FunctionBatchDeploy.PostRepliesAfterChecks | function-batch/Cloud3DSTKDeploymentAPI/Controllers/Cloud3DSTKController.cs:77-97 | past the checks, the answer is OK exactly when neither the TURN stage nor the rendering stage throws; a TURN exception faults the action with only the TURN requests sent; otherwise a rendering exception faults it, after both stages' requests |
| FunctionBatchDeploy.PostCreatesTurnPoolOnlyIfAbsent | function-batch/Cloud3DSTKDeploymentAPI/Controllers/Cloud3DSTKController.cs:77-81 | a TURN pool is created exactly when the body passes the checks and its id is not listed |
| FunctionBatchDeploy.JobStepSubmitsOncePerNode | function-batch/Cloud3DSTKDeploymentAPI/Controllers/Cloud3DSTKController.cs:88-94 | with the job accepted and a TURN node available: exactly one submission of the rendering task per rendering node, between the job's creation and the monitor's termination of the job |
| FunctionBatchDeploy.RenderingStepSubmitsOncePerNode | function-batch/Cloud3DSTKDeploymentAPI/Controllers/Cloud3DSTKController.cs:83-95 | when the rendering pool is created and its job accepted: pool, job, one submission per rendering node, and the job's termination last |
| FunctionBatchDeploy.DuplicateRenderingTaskIds | function-batch/Cloud3DSTKDeploymentAPI/Services/BatchService.cs:235 | as written, two rendering nodes submit two tasks with the same id to one job |
| FunctionBatchDeploy.NumberedRenderingTasks | function-batch/Cloud3DSTKDeploymentAPI/Controllers/Cloud3DSTKController.cs:89-92 | one submission per node, the i-th carrying the task numbered i |
| FunctionBatchDeploy.NumberedTaskIdsDistinct | function-batch/Cloud3DSTKDeploymentAPI/Services/BatchService.cs:235 | two different node numbers give two different task ids |
| FunctionBatchDeploy.NumberedRenderingTasksUnique | function-batch/Cloud3DSTKDeploymentAPI/Services/BatchService.cs:235 | with numbered ids, no two submitted tasks of the job share an id |
| FunctionBatchDeploy.Cloud3DSTKController.constructor | function-batch/Cloud3DSTKDeploymentAPI/Controllers/Cloud3DSTKController.cs:30-33 | the controller holds the injected service |
| FunctionBatchDeploy.Cloud3DSTKController.EnsureTurnPool | function-batch/Cloud3DSTKDeploymentAPI/Controllers/Cloud3DSTKController.cs:77-81 | exception, requests and listing are the TURN step's |
| FunctionBatchDeploy.Cloud3DSTKController.SubmitRenderingTasks | function-batch/Cloud3DSTKDeploymentAPI/Controllers/Cloud3DSTKController.cs:89-92 | the `for` loop's exception and requests are the submission step's |
| FunctionBatchDeploy.Cloud3DSTKController.LaunchRenderingJob | function-batch/Cloud3DSTKDeploymentAPI/Controllers/Cloud3DSTKController.cs:88-94 | exception and requests are the job step's |
| FunctionBatchDeploy.Cloud3DSTKController.EnsureRenderingPool | function-batch/Cloud3DSTKDeploymentAPI/Controllers/Cloud3DSTKController.cs:83-95 | exception, requests and listing are the rendering step's |
| FunctionBatchDeploy.Cloud3DSTKController.Post | function-batch/Cloud3DSTKDeploymentAPI/Controllers/Cloud3DSTKController.cs:42-98 | reply, requests and listing are the create action's |
| FunctionBatchDeploy.Cloud3DSTKController.DeletePool | function-batch/Cloud3DSTKDeploymentAPI/Controllers/Cloud3DSTKController.cs:107-134 | reply and requests are the delete action's; the listing is unchanged |
| LegacyDeploy.WindowsTaskRequestsAppend | function-batch/Cloud3DSTKDeploymentAPI/Controllers/Cloud3DSTKApiController.cs:62-65 | the task requests of two runs of requests add up |
| LegacyDeploy.WindowsTaskRequestsRepeat | function-batch/Cloud3DSTKDeploymentAPI/Controllers/Cloud3DSTKApiController.cs:62-65 | n copies of a task request count n |
| LegacyDeploy.LegacyRenderingStep | function-batch/Cloud3DSTKDeploymentAPI/Controllers/Cloud3DSTKApiController.cs:56-68 | a listed rendering pool means no request; otherwise the Windows pool and then the job come first; an exception escapes exactly when the job is refused |
| LegacyDeploy.LiteralMessages | function-batch/Cloud3DSTKDeploymentAPI/Controllers/Cloud3DSTKApiController.cs:38-48 | the controller's literal refusals are the deployment controller's message texts |
| LegacyDeploy.LegacyNullAndEmptyBodies | function-batch/Cloud3DSTKDeploymentAPI/Controllers/Cloud3DSTKApiController.cs:29-40 | a null body faults on its first field; an empty object answers 400 "Signaling is required"; neither sends anything |
| LegacyDeploy.LegacyChecksLikeDeployment | function-batch/Cloud3DSTKDeploymentAPI/Controllers/Cloud3DSTKApiController.cs:31-48 | the same defaults and checks, in the same order, as the deployment controller; a refused body sends nothing |
| LegacyDeploy.LegacyCreatesTurnPoolOnlyIfAbsent | function-batch/Cloud3DSTKDeploymentAPI/Controllers/Cloud3DSTKApiController.cs:50-54 | the Linux pool is requested exactly when it is not listed, and then first |
| LegacyDeploy.LegacySubmitsOncePerNode | function-batch/Cloud3DSTKDeploymentAPI/Controllers/Cloud3DSTKApiController.cs:56-70 | exactly one task request per rendering node when the rendering pool is absent and the job accepted, else none; the monitor comes last; OK unless the job is refused |
| LegacyDeploy.Cloud3DSTKApiController.constructor | function-batch/Cloud3DSTKDeploymentAPI/Controllers/Cloud3DSTKApiController.cs:19-22 | the controller holds the injected service |
| LegacyDeploy.Cloud3DSTKApiController.DeployRendering | function-batch/Cloud3DSTKDeploymentAPI/Controllers/Cloud3DSTKApiController.cs:56-68 | exception and requests are the rendering step's; the listing is unchanged |
| LegacyDeploy.Cloud3DSTKApiController.RequestLinuxPool | function-batch/Cloud3DSTKDeploymentAPI/Controllers/Cloud3DSTKApiController.cs:50-54 | requests the Linux pool exactly when it is not listed |
| LegacyDeploy.Cloud3DSTKApiController.Post | function-batch/Cloud3DSTKDeploymentAPI/Controllers/Cloud3DSTKApiController.cs:26-71 | reply and requests are the create action's; the listing is unchanged |
| LegacyDeploy.Cloud3DSTKApiController.Deploy | function-batch/Cloud3DSTKDeploymentAPI/Controllers/Cloud3DSTKApiController.cs:50-70 | reply and requests are the deployment's, past the checks |
| BatchPoolWebApp.PoolAppChecksSignalingFirst | function-batch/BatchPoolWebApp/BatchPoolWebApp/Api/BatchApiController.cs:53-54 | "Signaling is required" is answered exactly when the URL or port is missing, and then nothing is requested |
| BatchPoolWebApp.PoolAppRollsBackFailedLinuxJob | function-batch/BatchPoolWebApp/BatchPoolWebApp/Api/BatchApiController.cs:56-70 | "Linux tasks failed!" exactly when the Linux pool was absent and its tasks failed; its last two requests then delete the job and then the pool, and no Windows pool is requested; otherwise OK with no deletion |
| BatchPoolWebApp.PoolAppCreatesWindowsPoolOnlyIfAbsent | function-batch/BatchPoolWebApp/BatchPoolWebApp/Api/BatchApiController.cs:72-76 | the Windows pool is requested, last, exactly when the Linux stage passed and the Windows id is not listed; the request names the Linux pool first |
| BatchPoolWebApp.PoolAppDefaults | function-batch/BatchPoolWebApp/BatchPoolWebApp/Api/BatchApiController.cs:44-51 | with only the signaling fields and nothing listed: "LinuxPool" with one node, the "3DSTKTURNJob" job, a 20-minute monitor, then "WindowsPool" with one node |
| BatchPoolWebApp.BatchApiController.constructor | function-batch/BatchPoolWebApp/BatchPoolWebApp/Api/BatchApiController.cs:20-23 | the controller holds the injected service, whose requests go to the given client |
| BatchPoolWebApp.BatchApiController.Post | function-batch/BatchPoolWebApp/BatchPoolWebApp/Api/BatchApiController.cs:41-84 | reply and requests are the create action's; the listing is unchanged |
| Orchestrator.DownscaleInterval | web-api/Cloud3DSTKDeployment/Controllers/Orchestrator3DSTKController.cs:160-166 | a timer exists exactly when the parsed minutes are positive; its interval is a whole, positive number of minutes in milliseconds |
| Orchestrator.DownscaleIntervalOf | web-api/Cloud3DSTKDeployment/Controllers/Orchestrator3DSTKController.cs:160-166 | a missing setting gives no timer; a configured number of minutes gives minutes × 60000 ms when positive and no timer otherwise |
| Orchestrator.ServerValues | web-api/Cloud3DSTKDeployment/Controllers/Orchestrator3DSTKController.cs:72-80 | the report's servers, in document order, without their property names |
| Orchestrator.ReportVerdicts | web-api/Cloud3DSTKDeployment/Controllers/Orchestrator3DSTKController.cs:61-150 | a null body answers 400 "body is empty", a missing server list faults; a missing total answers a bare 400; a NotEnabled verdict answers 400 with the no-autoscaling warning; 200 exactly when the totals are present and the verdict is not NotEnabled; any other answer leaves the timer and forwards nothing; the timer stays consistent |
| Orchestrator.ReportActions | web-api/Cloud3DSTKDeployment/Controllers/Orchestrator3DSTKController.cs:95-146 | upscale stops the timer and forwards one create for the fresh pool id; OK only stops it; downscale adds one handler with the report's snapshot and starts a stopped timer, and leaves a running or missing one alone |
| Orchestrator.UpscaleUsesDefaultTurnPool | web-api/Cloud3DSTKDeployment/Controllers/Orchestrator3DSTKController.cs:113-119 | the forwarded create names the fresh rendering pool and resolves the TURN pool to the default |
| Orchestrator.DeletionsFromVerdicts | web-api/Cloud3DSTKDeployment/Controllers/Orchestrator3DSTKController.cs:176-201 | on firing, every forwarded deletion names a pool a handler's fresh downscale verdict chose, at most one per handler, and there is one exactly when some handler's verdict is downscale |
| Orchestrator.HandlersOnlyAppended | web-api/Cloud3DSTKDeployment/Controllers/Orchestrator3DSTKController.cs:128 | over any run of reports and firings the old handlers stay, in place, at most one is added per event, and a controller without a timer never gets one |
| Orchestrator.OrchestratorController.constructor | web-api/Cloud3DSTKDeployment/Controllers/Orchestrator3DSTKController.cs:156-167 | the timer's interval comes from the configured minutes, and the timer starts stopped with no handlers |
| Orchestrator.OrchestratorController.CollectServers | web-api/Cloud3DSTKDeployment/Controllers/Orchestrator3DSTKController.cs:72-80 | the loop collects every server of the report, in order |
| Orchestrator.OrchestratorController.Post | web-api/Cloud3DSTKDeployment/Controllers/Orchestrator3DSTKController.cs:61-150 | reply, timer and forwarded requests are the report action's |
| Orchestrator.OrchestratorController.DownscaleElapsed | web-api/Cloud3DSTKDeployment/Controllers/Orchestrator3DSTKController.cs:176-201 | forwards a deletion of the verdict's pool exactly when the fresh verdict is downscale, then stops the timer |
| Orchestrator.OrchestratorController.Elapse | web-api/Cloud3DSTKDeployment/Controllers/Orchestrator3DSTKController.cs:176-201 | a firing runs every handler in the order attached, forwards their deletions, and leaves the timer stopped |

## Left out

- The Azure Batch SDK itself is not modelled. Its answers are arguments:
  - commits, refreshes, task monitoring and the remote-login address of a node;
  - the pool listing is the client's `pools`;
  - the deletes, resizes, job terminations and node removals are only logged, because the service carries them out asynchronously;
  - the function app's task submissions are logged and always accepted (see the next line).
- FunctionBatchService.BatchService.AddRenderingTasksAsync: a refused `AddTaskAsync` (function-batch/Cloud3DSTKDeploymentAPI/Services/BatchService.cs:257) throws a `BatchException` that escapes the create action. The model has no answer for a submission, so once a TURN node is found every submission is accepted and the create action can still answer OK. That includes the second "StartRendering" task in the Findings row below, which the service would refuse.
- Wall-clock time is not modelled. Each refresh carries the stopwatch reading at that refresh, and the readings must end past half an hour (`TimeSpan.TicksPerHour / 2`). `Task.Delay`, the Stopwatch/TimeSpan tick-unit mismatch and the timer's own clock are not modelled. The 20-minute task-monitor timeout is the `timedOut` argument.
- Concurrency is not modelled. Timer callbacks run on thread-pool threads, and the model runs reports and firings one at a time. A handler that fires after another has stopped the timer is not modelled.
- The orchestrator runs every report and firing on one controller instance, as its design describes. `Orchestrator3DSTKController` is a Web API controller (web-api/Cloud3DSTKDeployment/Controllers/Orchestrator3DSTKController.cs:25) whose timer is an instance field (:35, created at :165). ASP.NET Web API creates a controller per request, so as hosted each report would get a fresh, stopped timer, and an upscale or OK report could not stop a downscale that an earlier report started. Per-request hosting is not modelled.
- `GetAutoscalingStatus` and `IsAutoScaling` are declared in web-api/Cloud3DSTKDeployment/Services/IBatchService.cs:37 and 43, and their implementation is not part of this model. The verdict is an uninterpreted function (`evaluate`) given to the orchestrator.
- Orchestrator.OrchestratorController.constructor: the interval is exact minutes × 60000. `System.Timers.Timer` rejects an interval above int.MaxValue milliseconds (more than 35791 minutes), and that exception is not modelled.
- The GUIDs are arguments (`newPoolId`). These are the orchestrator's fresh rendering-pool id, and the task id of the web API's `AddRenderingTasksAsync`.
- The web API's `AddRenderingTasksAsync` (web-api/Cloud3DSTKDeployment/Services/BatchService.cs:420-450) is not modelled. No modelled controller calls it; the function app's version is modelled.
- The web API service's `DeleteJobAsync` and the function app service's `DeleteJobAsync` are not modelled separately. Each is a single SDK call, and the pool web app's rollback logs it as a `DeleteJob` request.
- The web API service's `DeletePoolAsync` is modelled as one logged `DeletePool` request, issued by the controller.
- The web API's `MonitorTasks` does not inspect the tasks after they complete, so its answer is just "no timeout". That is what the source does.
- The web API controller calls `CreateRenderingPool(renderingPoolId, rdp.IPAddress)` (web-api/Cloud3DSTKDeployment/Controllers/Cloud3DSTKController.cs:118). The service shown takes only the pool id, so the model uses the one-argument service and drops the address.
- Service calls that the pool web app and the older function-app controller make are recorded as requests and do not change the listing: `CreateLinuxPool`, `CreateWindowsPool`, the pool web app's own `CreateJobAsync`, `MonitorTasks`, `DeleteJobAsync` and `DeletePoolAsync`, and `AddWindowsTasksAsync`. Their service classes are stubs or absent and are not part of this model. The older controller's `CreateJobAsync` and `MonitorTasks` use the function app's modelled service.
- The results of pool creation, job creation and task monitoring that the controllers ignore are computed but not used, as in the source. Likewise the orchestrator's `totalSlots` is checked for presence only.
- The exceptions `RemoveFromPoolAsync` throws are swallowed by the source. The model logs one removal request per non-Idle node.
- The VM images, start tasks, network configuration, user identities and the command-line text around the deploy script's arguments are not modelled; only the image offer and the argument order are.
- CSharp.TrimStart and CSharp.TrimEnd, and through them CSharp.ParseInt32: `int.Parse` white space is the ASCII set (space, tab to carriage return). Unicode white space, thousands separators and culture settings are not modelled. Leading zeros are accepted and read for their value, as `int.Parse` does.
- The orchestrator's nested `controller.Post` and `controller.DeletePool` calls (web-api/Cloud3DSTKDeployment/Controllers/Orchestrator3DSTKController.cs:119 and :197) are recorded as forwarded requests and are not run inside the report or the firing. An exception from them would fault the report action in the source; the model's report answers 200 regardless.
- The function app's ApiResultMessages.cs defines no `ErrorPoolIdRequired` or `ErrorPoolIdNotFound`, though its controller uses both (function-batch/Cloud3DSTKDeploymentAPI/Controllers/Cloud3DSTKController.cs:120 and :126). Models supplies the web API's texts for both.
- JSON deserialisation is not modelled. A body is a record of optional fields, with a missing key and a null value treated alike. A field of the wrong JSON type, which throws in `ToObject`, is not modelled.
- The JavaScript services, the `PoolCreator` functions, the pool web app's view controller and stub service, and the hosting, authentication and configuration plumbing are not part of this model.

## Findings

| source | as written | input that shows it | evidently intended | confidence | as-written member | corrected member |
|---|---|---|---|---|---|---|
| web-api/Cloud3DSTKDeployment/Services/BatchService.cs:144 | `totalClients / capacity * 100 > threshold` divides first, so the integer quotient truncates to 0 whenever clients are fewer than the capacity | 90 clients, capacity 100, threshold 80: 90 / 100 = 0, and 0 > 80 is false, though 90% of capacity is in use | compare the percentage in use, `totalClients * 100 / capacity`, with the threshold | not executed | WebApiService.CapacityVerdict (shown by WebApiService.TruncatedPercentage) | WebApiService.IntendedCapacityVerdict (with WebApiService.PercentageComparison) |
| function-batch/Cloud3DSTKDeploymentAPI/Services/BatchService.cs:235 | every rendering task is submitted with the id "StartRendering", and the controller submits one per rendering node to the same job (function-batch/Cloud3DSTKDeploymentAPI/Controllers/Cloud3DSTKController.cs:89-92) | `dedicatedRenderingNodes` = 2 with the rendering pool absent and the job accepted: two tasks with id "StartRendering" in one job, which the Batch service refuses for the second; the model records the duplicate ids but not that refusal (see "## Left out") | give each node's task its own id within the job | not executed | FunctionBatchDeploy.DuplicateRenderingTaskIds | FunctionBatchDeploy.NumberedRenderingTasks (with FunctionBatchDeploy.NumberedRenderingTasksUnique) |
| web-api/Cloud3DSTKDeployment/Services/BatchService.cs:83 | `int.TryParse` writes 0 into `signalingServerPort` when the key is missing or does not parse, overwriting the int.MaxValue initial value that the signaling check at line 154 looks for | a configuration with a non-empty "SignalingServerUrl" and no "SignalingServerPort": the port is 0 and the check passes | keep int.MaxValue unless the setting parses, so a missing port is reported | not executed | WebApiService.BatchService.OmittedPortPassesSignalingCheck | WebApiService.IntendedSetting (with WebApiService.BatchService.IntendedOmittedPortRefused) |
| web-api/Cloud3DSTKDeployment/Services/BatchService.cs:82 | `int.TryParse` writes 0 into `automaticScalingThreshold` when the key is missing, overwriting the int.MaxValue initial value that switches the capacity check off at line 139 | no "AutomaticScalingThreshold" key and no Windows pool listed: the threshold is 0 and the check divides by zero | keep int.MaxValue unless the setting parses, so a missing threshold switches autoscaling off | not executed | WebApiService.BatchService.OmittedThresholdEnablesScaling | WebApiService.IntendedSetting (with WebApiService.BatchService.IntendedOmittedThresholdSwitchesOff) |
