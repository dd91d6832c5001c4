# pixelforge, verified

A Dafny model of pixelforge, an image-thumbnailing service: an API process stores
an upload in S3, writes a DynamoDB record and sends an SQS message; workers
receive the message, render thumbnails, upload them and complete the record.
`dafny verify dfyconfig.toml` checks the whole project.

## What is modelled

**The job protocol** (`Keys`, `Domain`, `Protocol`). A step system over the object
store, the job table, the queue, the dead-letter queue, the running upload
requests and the running workers. Each request and each worker advances by one
AWS call per step, so every interleaving and every crash point is a run. A call
may take effect and still be retried or reported failed, a message may be kept
in several copies, its visibility may expire at any time (also while a worker
holds it), a delete with a stale receipt handle may remove nothing, and the queue
may hold bodies nobody can parse. Rendering is a relation between bytes and
results: two attempts on the same bytes may differ.

**What every run keeps** (`Invariant`, `Guarantees`, `AtomicSpec`, `Redelivery`,
`ExclusiveDelivery`). One inductive invariant, proved without assuming that
rendering is deterministic; where a theorem needs that, it says
`Deterministic(c)`. The system refines an atomic specification in which a job is
accepted with its verdict already fixed and decided at most once.

**Where the promises end** (`Limits`, `Contention`). Four promises do not hold of
every upload. Each comes with an if-and-only-if over all uploads, and the runs
that break it are built step by step (`Scenes`). `Progress` says what is still
possible from any reachable state.

**The code as it is written** (`Clients`, `Worker`, `Service`, `Routes`,
`Heartbeat`). Classes with the program's own fields and one method per method of
the program, proved against functions that say what the call does to the services
and counters (`WorkerRuns` says what they mean). `Service.CreatedIsPath` and, in
`WorkerPaths`, `HandledIsPath`, `RivalledIsPath` and `InterleavedIsPath` show that a
whole method run is a path of the step system, with or without other processes
moving between the worker's lookup and its conditional write. `RunIsPath` chains
them: a run of the poll loop, with what the queue service does between polls, is
one path. So the theorems about paths hold of the classes.

**Supporting cores**: the two backoff ladders (`Retry`), the heartbeat's deadline
arithmetic (`Heartbeat`), DynamoDB marshalling (`Marshalling`) composed with EXIF
extraction (`Exif`), the log scrubber (`Scrub`) and the load generator's
FIFO-with-sentinels protocol (`LoadGen`).

## Assumptions

- All workers share one configuration (bucket and thumbnail sizes).
- A send reported as failed enqueued nothing; `api/service.py:193-198` relies on it.
- Message bodies on the queue were produced by the API, except for bodies that do
  not parse at all.
- Job ids are fresh. No assumption is made on their characters: the key layout
  turns out injective for any text, because a key is read from its last slash.
- A rendered image has one thumbnail per distinct configured size, in increasing
  order (`shared/images.py:280`).
- Rendering is deterministic only where a lemma says so.

## Where code and documentation disagree

The model follows the code.

- `README.md:437-439` calls the transition to `PROCESSING` conditional on
  `PENDING`/`PROCESSING`. The condition (`shared/aws.py:435`) also admits `FAILED`.
  `Contention.ReopensIff` says for which uploads a failed job can be reopened.
- The same lines and `shared/aws.py:420-422` say that the condition makes a duplicate
  delivery a no-op. It excludes nothing but a `COMPLETE` record: for every upload the
  workers would take up, two of them can both win (`Contention.BothWinIff`).
- `README.md:464-467` and `shared/aws.py:462-464` promise that a crash never loses a
  job. If two workers hold the same copy of a message whose bytes do not decode,
  the later receiver can record `FAILED`, the earlier one turn the record back to
  `PROCESSING`, the later one delete the message and the earlier one crash: the record stays `PROCESSING` for good,
  though it keeps its `error` attribute. `Limits.StrandedIff` says for
  which uploads this can happen; `ExclusiveDelivery.ExclusiveNeverStrands` that it
  cannot while no copy is held twice.
- `shared/images.py:287-288` reports running out of memory and I/O errors as
  `ImageProcessingError`, a permanent failure. One attempt can then fail where another
  succeeds, and the failing worker's unconditional write can replace `COMPLETE` by
  `FAILED`. `Limits.UncompletesIff` gives the exact condition.
- `worker/consumer.py:183` says `handle_message` never raises. It raises exactly when
  an error that no handler names comes from the lookup, the conditional write or the
  recording of a failure, or when the stored item is not a valid record
  (`WorkerRuns.RaisesIff`); `run` catches it. The second never happens to messages and
  records written by the API and the workers (`WorkerRuns.RaisesOnlyUnexpected`): such
  an item would have to be put in the table by something else.
- `worker/heartbeat.py:30-32` says one failed call does not lose the message. With
  15 s between beats and 60 s per extension that is so exactly if a call with all
  its retries never lasts more than 10 s (`Heartbeat.OneFailedCallIff`). One attempt
  may by itself wait 40 s for a response (`shared/aws.py:68`).
- `shared/aws.py:127-128` relies on the shortest text of a float reading back as the
  same number. A large float can be written like a whole number it is not worth,
  and comes back as that number (`Marshalling.LargeFloatsMayNot`).
- `README.md:271-273` says every terminated upload attempt lands in exactly one counter.
  A request refused before the handler runs, for a missing file part
  (`api/main.py:160-165`) or by the fault injector (`api/main.py:153-158`), lands in none:
  the counters add up to the attempts exactly if there was no such request
  (`Routes.CountsAddUpIff`).
- The load generator's total is presented as the uploads attempted. It adds up to the
  uploads scheduled exactly if every upload was taken off the queue and none was lost
  to an exception other than an `OSError` (`LoadGen.ReportAddsUpIff`): a response that
  is not JSON loses its upload and its thread, and a thread that cannot hand its job
  to the pollers (`loadgen/generate.py:227-231`) dies with its upload counted, so that
  uploads may be left on the queue if no thread survives.

## Model

| member | source | states |
|---|---|---|
| Keys.TextInjective | api/service.py:159 | Input keys and output keys never collide, and job, extension or size can be read back from the text of a key, for any job id |
| Keys.OutputKeysInjective | worker/consumer.py:359 | (job, size) to output key is injective for every job id |
| Keys.OutputsMissUploads | README.md:441-450 | The two prefixes are disjoint: no output lands on an original |
| Keys.KeyTexts | api/service.py:159 | Keys as they are written: `outputs/{job}/thumb_{size}.jpg` and `uploads/{job}/original{ext}` |
| Keys.DecReads | worker/consumer.py:359 | The size in a key reads back as the number it was written from, and has no leading zero |
| Domain.OneOutputPerSize | worker/consumer.py:356-366 | A completed record has exactly one output per distinct configured size |
| Domain.OutputsDescribe | worker/consumer.py:356-366 | The outputs have an entry per size uploaded, with the key, width, height and length of the last thumbnail of that size |
| Domain.SortedDistinct | shared/images.py:280 | The sizes rendered are the configured ones, each once, in increasing order |
| Invariant.StepKeeps | worker/consumer.py:230-336 | Every step of every request, worker and queue keeps the invariant; originals, history and the facts workers rely on are never undone |
| Guarantees.RecordShapeFollowsStatus | shared/aws.py:434-514 | In every reachable state the attributes present follow the status, whatever rendering does |
| Guarantees.MessageImpliesRecordAndObject | api/service.py:126-129 | At every crash point a message, queued, parked or held, has its record with matching fields and the uploaded bytes behind it |
| Guarantees.OriginalsNeverChange | api/service.py:177-178 | A record has the client's bytes at its input key, and no continuation changes them or the attributes `put_item` wrote |
| Guarantees.NoJobLost | worker/consumer.py:240-302 | An enqueued job with no message left anywhere is COMPLETE or carries an error; COMPLETE if it can never fail |
| Guarantees.SentRecordStep | shared/aws.py:417-515 | An enqueued record changes only by the three worker writes, each justified by the upload; the API's overwrite never reaches it |
| Guarantees.OverwriteIsPrivate | api/service.py:224-240 | When the API overwrites a record after a refused send, no message and no worker refers to that job |
| Guarantees.CompleteIsFinal | shared/aws.py:468-515 | COMPLETE stays COMPLETE in every continuation if the bytes can never be found undecodable |
| Guarantees.TerminalWriteIsVerdict | worker/consumer.py:262-318 | Every terminal write writes the verdict fixed by the message and the bytes |
| Guarantees.TerminalWritesAgree | worker/consumer.py:262-318 | No two terminal writes to a job disagree, in any run, by any workers |
| Guarantees.CompleteMeansDelivered | worker/consumer.py:338-382 | A COMPLETE record has one output per distinct size, each naming a stored thumbnail that is the rendering of the original, with true width, height and length, also while other workers re-upload |
| AtomicSpec.StepRefines | worker/consumer.py:230-336 | Every step is, to a client, an acceptance, the one decision of a job, or invisible |
| AtomicSpec.RunRefines | worker/consumer.py:230-336 | Every run, seen by clients, is a run of the atomic specification |
| AtomicSpec.ReachableRefines | README.md:464-467 | Runs from the empty system refine the specification from no jobs; what a decided job shows is its verdict |
| AtomicSpec.CompleteIsAbsorbing | shared/aws.py:417-515 | With deterministic rendering COMPLETE is absorbing, and the outputs and metadata shown never change again |
| ExclusiveDelivery.ExclusiveNeverStrands | worker/consumer.py:246-302 | If no copy is ever held twice, a job that is PENDING or PROCESSING always has a message left, through crashes, failed deletes and duplicates |
| Redelivery.ReceptionsBounded | terraform/platform/sqs.tf:20-26 | In every run each message copy is received at most as often as the redrive limit allows |
| Redelivery.RunDrains | worker/consumer.py:159-176 | With no new messages the queue moves at most a number of times fixed by its contents, whatever the workers do |
| Redelivery.LeftoverCanMove | terraform/platform/sqs.tf:20-26 | While a message is left and a worker is idle the queue can move |
| Redelivery.CopiesAccounted | terraform/platform/sqs.tf:20-26 | Along any run every copy ever issued is queued, on the DLQ, or was deleted by a worker |
| Redelivery.DrainedMeansSettled | terraform/platform/sqs.tf:20-26 | A run after which the queue cannot move, with a worker idle, leaves an empty queue: every copy ever issued was deleted or is on the DLQ |
| Redelivery.CanDrain | terraform/platform/sqs.tf:20-26 | The queue can be drained from any state, whatever the workers do |
| Limits.StrandedIff | worker/consumer.py:272-318 | A job can end up unfinished with no message and no worker left exactly if a copy may be received twice, the workers would take the job up, and its bytes can fail to decode |
| Limits.StrandedForGood | shared/aws.py:417-515 | Such a job's record never changes again in any continuation |
| Limits.UncompletesIff | shared/aws.py:494-515 | COMPLETE can be overwritten exactly if messages are received at all, the workers would take the job up, and its bytes can both render and fail |
| Contention.ReopensIff | shared/aws.py:434-436 | Some reachable step takes a record from FAILED to PROCESSING exactly if messages are received at all, the workers would take the job up, and its bytes can fail to decode |
| Contention.BothWinIff | shared/aws.py:420-422 | Two workers can both have won the conditional write for a job exactly if messages are received at all and the workers would take the job up |
| Progress.CanStillComplete | worker/consumer.py:230-314 | From any reachable state a workable job whose bytes can render can still become COMPLETE, if a worker is idle and a queued copy of its message has a receive left |
| Clients.S3Store.PutBytes | shared/aws.py:174-187 | An object is written if the call took effect, whether or not it was reported |
| Clients.S3Store.GetBytes | shared/aws.py:200-212 | A missing key is a client error, otherwise the stored bytes |
| Clients.JobTable.PutJob | shared/aws.py:385-392 | Replaces the whole item |
| Clients.JobTable.GetJob | shared/aws.py:394-415 | The item, or nothing when the key is missing |
| Clients.JobTable.MarkProcessing | shared/aws.py:417-447 | Sets status, start and update time and nothing else, unless the item is missing or COMPLETE; a failed condition is an answer, not an error |
| Clients.JobTable.MarkComplete | shared/aws.py:449-492 | Unconditional: sets status, outputs, metadata, duration and both times, removes the error, and keeps the rest of the item, attribute by attribute |
| Clients.JobTable.MarkFailed | shared/aws.py:494-515 | Unconditional: sets status, the reason cut at 512 characters and both times, and keeps the rest of the item, attribute by attribute |
| Clients.JobQueue.SendJob | shared/aws.py:267-289 | One or more new copies of the message, none if the send is refused |
| Clients.JobQueue.Receive | shared/aws.py:291-318 | Hands over the body of a copy exactly if it is visible and has a receive left, counts the reception and takes it out of sight; otherwise the poll is empty |
| Clients.JobQueue.Move | terraform/platform/sqs.tf:20-26 | What the queue service does between two polls, move by move: a timeout ends, a spent copy is parked, a receive takes effect unseen |
| Clients.JobQueue.Delete | shared/aws.py:320-327 | Removes the copy if it took effect; an empty handle is refused |
| Worker.Worker.constructor | worker/consumer.py:101-118 | A new worker has counted nothing and is not stopping |
| Worker.Worker.RequestStop | worker/consumer.py:127-134 | The first reason is kept |
| Worker.Worker.HandleMessage | worker/consumer.py:180-228 | One message run: services, counters and outcome are those of the specification, and the in-flight gauge is restored on every path |
| Worker.Worker.Process | worker/consumer.py:230-336 | The pipeline after the body is parsed, for every mix of failing calls, unexpected exceptions included, and an interfering worker |
| Worker.Worker.Render | worker/consumer.py:281-336 | From the won transition to the outcome |
| Worker.Worker.UploadThumbs | worker/consumer.py:355-366 | Uploads in order until one fails; the outputs are those of all thumbnails |
| Worker.Worker.Finish | worker/consumer.py:291-314 | Completes, then deletes, and counts only when both were reported done |
| Worker.Worker.FailJob | worker/consumer.py:384-399 | Records the failure, counts it, deletes; leaves the message if the record could not be written |
| Worker.Worker.DeleteQuietly | worker/consumer.py:401-412 | No handle, no call; the copy is gone exactly if the delete took effect, and a failed delete is ignored |
| Worker.Worker.RunOnce | worker/consumer.py:159-176 | One poll: exactly if the copy can be handed over its message is handled, with the body on the queue and the reception counted; otherwise nothing happens |
| Worker.Worker.TakeTurn | worker/consumer.py:136-176 | One turn: the queue moves, then the copy asked for is received and its message handled, if the queue can hand it over |
| Worker.Worker.Run | worker/consumer.py:136-157 | Every turn up to and including the one in which a stop is requested is taken, in order, and no other; none if the stop came before the loop |
| WorkerRuns.DeletesOnlyTerminated | worker/consumer.py:291-302 | A run removes no copy but its own, and that one only if the body does not parse, the record is missing, or its status is COMPLETE or FAILED |
| WorkerRuns.UnparsedMeans | worker/consumer.py:190-214 | A body that does not parse is counted as a failure and deleted; a body from a newer producer changes nothing and stays on the queue |
| WorkerRuns.RaisesIff | worker/consumer.py:180-185 | A run raises exactly if the stored item is not a valid record, or an unexpected error comes from the lookup, the conditional write or the recording of a failure |
| WorkerRuns.RaisesOnlyUnexpected | worker/consumer.py:180-185 | On no message of any reachable state does a run raise, unless a call fails with an error none of its handlers names |
| WorkerRuns.UploadedStores | worker/consumer.py:355-366 | Exactly the thumbnails whose upload takes effect are stored, up to the first upload that raises; nothing else in the store changes |
| WorkerRuns.OutcomeMeans | worker/consumer.py:230-336 | Each outcome fixes the whole table, the queue, the objects and the counters, attribute by attribute, with a rival writer or without; after a run that gave up, by cases on the call that raised |
| WorkerRuns.CompletesIff | worker/consumer.py:230-314 | A run ends COMPLETED exactly if the record, the bucket, the object and all calls are in order |
| WorkerRuns.SkipsIff | worker/consumer.py:246-276 | A run skips its job exactly if the record is COMPLETE, at the lookup or at the conditional write, or gone at the latter |
| WorkerRuns.FailsIff | worker/consumer.py:240-318 | A run fails its job exactly if the record is missing, or the bucket is wrong or the original undecodable and the failure could be recorded |
| WorkerRuns.RunCounts | worker/consumer.py:304 | Alone, a run adds at most its own job to the completed ones, and counts it unless its last write raised after taking effect or its delete failed |
| WorkerRuns.CompleteCounterConserved | worker/consumer.py:246-305 | Over any sequential deliveries, duplicates and faults, COMPLETE records = earlier ones + the counter + runs not told of their success |
| WorkerRuns.CompleteCounterExact | worker/consumer.py:291-305 | If every last write was reported and every delete after it succeeded, the counter equals the number of records that became COMPLETE |
| WorkerRuns.CountedOnce | worker/consumer.py:246-249 | Each job is counted at most once, and not at all if it was COMPLETE before |
| WorkerRuns.RunIsDeliveries | worker/consumer.py:136-176 | What a run of the loop does to table, store and counters is what the messages the queue handed over do, each once and in order, whatever the queue does in between |
| WorkerRuns.EachReceptionHandled | worker/consumer.py:136-176 | If the queue rests and each poll can be answered, the messages handled are exactly those of the turns up to the first stop, with the bodies on the queue |
| WorkerRuns.OtherCopiesStay | worker/consumer.py:136-176 | Copies no poll asks for are left on the queue as they are |
| WorkerRuns.RunCountersBounded | worker/consumer.py:246-305 | Over a run of the loop the counter grows by at most the records that became COMPLETE, and by exactly as many if every completing write and delete was reported |
| WorkerPaths.HandledIsPath | worker/consumer.py:180-412 | Receiving and handling a message is a path of the protocol to the very state the worker class leaves, if no rival writes before its conditional write |
| WorkerPaths.RivalledIsPath | worker/consumer.py:254-276 | The same with a rival: any path in between that does to the services what the rival write does |
| WorkerPaths.InterleavedIsPath | worker/consumer.py:254-276 | Whatever other processes do between lookup and conditional write, the rest of the run is the one the class makes of the services found then |
| WorkerPaths.RunIsPath | worker/consumer.py:136-176 | A whole run of the poll loop, with the queue service's moves between polls, is one path to exactly the services the loop leaves |
| Service.JobService.ValidateUpload | api/service.py:89-119 | The first failing check decides |
| Service.JobService.MarkUnqueueable | api/service.py:224-246 | The record just written becomes FAILED with a reason and both times and is otherwise the same, if the write takes effect |
| Service.JobService.CreateJob | api/service.py:121-212 | Object, record, message, in this order: the services and the answer are those of the specification |
| Service.NeverQueuedWithoutObject | api/service.py:126-129 | A failure at any point leaves nothing a client can see or a record with its object, and only accepted uploads are queued |
| Service.CreatedWrites | api/service.py:152-200 | Object, record and message are those of the request: length, clean names, trace id and times, the dimensions and format found by the inspection, one key in all three; each is there exactly if its call took effect |
| Service.AnswerIff | api/service.py:121-212 | Which answer is given, by the first check or call that fails; accepted exactly if the three checks pass and the three calls succeed |
| Service.CreatedIsPath | api/service.py:121-246 | A call that passes validation is a path of the protocol, whatever fails |
| Routes.ReadLimited | api/routes/jobs.py:38-66 | The whole body exactly if its length is within the limit; otherwise reading stops within one chunk of it, however the body is chunked |
| Routes.UploadRoute.CreateJob | api/routes/jobs.py:81-130 | Every attempt that reaches the handler adds one to exactly one of the five counters, the one its answer belongs under |
| Routes.UploadRoute.Serve | api/routes/jobs.py:114-123 | Over any sequence of requests, refused ones included, each counter grows by exactly its answers |
| Routes.CountsAddUpIff | README.md:271-273 | The five counters sum to the attempts exactly if none was refused before the handler |
| Routes.EndsAs | api/routes/jobs.py:81-130 | Status and label of an attempt, by the first check or call that fails: 413, 415, 400, 202, 503 or 500 |
| Routes.LabelAgreesWithStatus | api/main.py:120-152 | The label of an attempt can be read off the response class |
| Heartbeat.VisibilityHeartbeat.constructor | worker/heartbeat.py:43-59 | The interval is at least one and the extension spans two intervals |
| Heartbeat.VisibilityHeartbeat.Loop | worker/heartbeat.py:77-92 | The deadline and the beats counted are those of the schedule of calls |
| Heartbeat.LastSuccessDecides | worker/heartbeat.py:77-92 | Only a successful call moves the deadline: the last one sets it one extension after the moment the queue acted on it |
| Heartbeat.SuccessesOfParts | worker/heartbeat.py:82 | Each successful call counts one beat, a failed one none |
| Heartbeat.AheadHolds | worker/heartbeat.py:77-92 | With enough extension the deadline stays ahead by the time of every further tolerated failure |
| Heartbeat.AlwaysInvisibleIff | worker/heartbeat.py:55-92 | The message stays invisible on every schedule with at most f failures in a row and calls of at most d exactly if extension and initial window span f failed rounds and one more |
| Heartbeat.WindowLeft | worker/consumer.py:281-302 | However the render ends, the slack in the extension is left to complete the record and delete the message |
| Heartbeat.OneFailedCallIff | worker/heartbeat.py:27-32 | With the shipped settings one failed call is tolerated exactly if calls last at most 10 s |
| Retry.PermanentErrorsSettle | shared/retry.py:10-13 | The errors called permanent end the ladder at once unless the response says throttled or failed |
| Retry.TransientIff | shared/retry.py:34-114 | Throttling, failures of the service and connectivity errors are transient, and nothing else |
| Retry.RetriesIff | shared/retry.py:149-162 | Only a transient error the caller does not swallow leads to another try |
| Retry.CallWithRetry | shared/retry.py:117-179 | Stops at the first success, swallowed code or permanent error with the value, None or the error itself; otherwise exhausts after exactly n tries with n-1 sleeps, each drawn below its ceiling |
| Retry.UniformSpans | shared/retry.py:86 | A sleep spans zero to its ceiling in proportion to the draw |
| Retry.LadderWithin | shared/retry.py:83-86 | One call sleeps at most min((n-1) max, base (2^(n-1) - 1)) in all |
| Retry.WaitForDependencies | shared/aws.py:629-648 | Ends in the first ready round, or fails after the last; the waits have exactly the ladder's lengths |
| Retry.LadderBounded | shared/retry.py:83-86 | The ladder is bounded by n caps and by the doublings of the base |
| Retry.LadderIs | shared/aws.py:635-637 | The exact sum of a clipped doubling ladder |
| Retry.ShippedLadders | shared/aws.py:597-604 | 75.5 s at startup, and at most 1.4 s of sleep in one call |
| Marshalling.ToDynamoWrites | shared/aws.py:124-136 | What is written has no float, no tuple and no None entry at any depth; each float is the decimal it is shown as, all else is the same value in the same place |
| Marshalling.KeptInDecimals | shared/aws.py:139-143 | What the table hands back is what was put, with each whole number as a decimal |
| Marshalling.PresentSnoc | shared/aws.py:133-134 | Only None entries go, each other keeps its place |
| Marshalling.RoundTripIsNorm | shared/aws.py:124-148 | Writing and reading any nested value gives its normal form: no None in dicts, lists for tuples, ints for floats written like one |
| Marshalling.NormSurvives | shared/aws.py:124-148 | A round trip is the identity on normal forms |
| Marshalling.EqualIff | shared/aws.py:127-128 | The value read is equal to the one written exactly if no float is written like a whole number it is not worth |
| Marshalling.SmallFloatsSurvive | shared/aws.py:127-128 | Floats within 53 bits always survive |
| Marshalling.LargeFloatsMayNot | shared/aws.py:139-143 | The float nearest to 1e23 comes back as a different number |
| Exif.NormalisedIsSafe | shared/images.py:172-199 | What is kept has no None or bytes at any depth, text of 1 to 256 characters without NUL and lists of 1 to 16 |
| Exif.NormalisedIs | shared/images.py:172-199 | What each kind of value becomes: rounded numbers, the quotient of a rational, at most 256 characters of stripped text, what is kept of the first 16 items; all else is dropped |
| Exif.StripCuts | shared/images.py:180 | Stripping cuts the spaces at both ends and nothing else |
| Exif.WithoutNulSnoc | shared/images.py:180 | Only NUL characters go, each other keeps its place |
| Exif.Absorb | shared/images.py:225-234 | Each name takes the last value worth keeping, and other names keep theirs |
| Exif.LastForIs | shared/images.py:225-234 | The value of a name is that of the last tag filed under it: not a sub-block pointer, not on the blocklist, no location, something to keep |
| Exif.ExtractExif | shared/images.py:202-244 | Each name holds the value of the sub-block if it has one, else that of the block; no name for location data or an opaque blob is ever in the result |
| Exif.ExifSurvives | shared/aws.py:473-491 | An extracted map comes back from the table with all its names and safe values, equal exactly if its floats are exact |
| Scrub.ScrubbedIsClean | shared/logging_setup.py:95-111 | No location key at any depth, every credential redacted, nesting, lists and text bounded |
| Scrub.ScrubbedShows | shared/logging_setup.py:95-111 | What is shown of each value: 512 characters of text and 32 items, the length of a byte string, nothing below the fourth level, all else as it is |
| Scrub.HarmlessIsKept | shared/logging_setup.py:95-111 | A value with nothing to hide and nothing to shorten is logged as it is |
| Scrub.VisibleSnoc | shared/logging_setup.py:99-103 | Only entries for locations go, each other keeps its place |
| Scrub.MarkerIsFound | shared/logging_setup.py:34-73 | A key with one of the markers anywhere, in any case, is taken for a credential or a location |
| Scrub.FoundIsMarker | shared/logging_setup.py:34-73 | And no other key is |
| Scrub.ScrubbedTwice | shared/logging_setup.py:95-111 | Scrubbing is idempotent at each depth, cut text included |
| Scrub.ScrubbedHides | shared/logging_setup.py:12-16 | Values that differ only under location and credential keys or in the contents of byte strings are logged alike |
| Scrub.EventDict.Redact | shared/logging_setup.py:114-124 | The in-place loop gives the scrubbed event: location keys gone, credentials redacted, the rest scrubbed |
| Scrub.EventIsNoLocation | shared/logging_setup.py:117 | The exemption of the message's own key never matters |
| Scrub.LineIsClean | shared/logging_setup.py:114-124 | A whole line is clean, keeps exactly the names that are no location and that of the message, shows under each what may be shown, and is stable |
| Scrub.LineHides | shared/logging_setup.py:12-16 | Events alike but for locations, credentials and contents give the same line |
| LoadGen.SentinelsComeLast | loadgen/generate.py:193-205 | In every interleaving a sentinel is taken only after all uploads were, and ends one thread each |
| LoadGen.NeverStuck | loadgen/generate.py:203 | A thread that has not ended never waits on an empty queue |
| LoadGen.RunsAreShort | loadgen/generate.py:281-284 | Every interleaving ends, within two steps per entry |
| LoadGen.AtJoin | loadgen/generate.py:281-284 | At join every thread took exactly one sentinel or was killed; if one was not, the uploads not counted are those lost with their thread |
| LoadGen.ReportAddsUpIff | loadgen/generate.py:81-84 | The report sums to the uploads scheduled exactly if every upload was taken off the queue and no exception but a transport error escaped one before it was counted |
| LoadGen.ReportAddsUp | loadgen/generate.py:193-233 | With no thread killed the report sums to the uploads scheduled |
| LoadGen.Load.constructor | loadgen/generate.py:252-257 | The queue holds every send time in order, then one sentinel per thread |
| LoadGen.Load.Turn | loadgen/generate.py:202-233 | One turn of a thread is one step of the protocol, be it killed before or after it counted its upload |
| LoadGen.RunLoad | loadgen/generate.py:245-292 | A run to the join is a run of the protocol; each line of the report counts exactly the uploads taken off the queue that end as it says, and the total is the uploads scheduled if no exception kills a thread |
| LoadGen.TurnTallies | loadgen/generate.py:217-225 | Every turn of every thread keeps the tally: an upload is on the line of its own reply once it is no longer in hand |

## Left out

- Pillow: decoding, resizing, EXIF parsing and tag names; rendering is a relation, names and rounding are parameters.
- boto3, FastAPI, pydantic, prometheus and OpenTelemetry: only the effect or fault of a call is kept.
- Threads, signals and clocks: steps, schedules and time parameters instead; a forced exit is the crash step.
- Retention expiry of the queues, operator redrive from the DLQ, and a send that fails although it enqueued.
- Interleaving inside the classes: `Worker` and `JobService` run one call after another, with at most one rival write; all interleavings are in `Protocol`.
- Worker.Worker.Process: an unexpected exception raised by the rendering itself is counted as one of the download, which has the same effect.
- WorkerPaths.RunIsPath: between polls only the queue service moves, and no rival writes during a message; with other processes in between, each message is a path by `InterleavedIsPath`.
- WorkerRuns.CompleteCounterConserved: says nothing of workers running side by side, where two may both count one job.
- Exact text: `sanitise_filename`, content-type normalisation and `lower` are parameters; the wording of failure reasons is not kept.
- Outputs are keyed by the size itself, not by its decimal text; the two correspond by `Keys.DecInjective`.
- Job-id validation on reads, health, readiness summary, chaos, configuration, access logs and the poller and percentiles of the load generator.
- Marshalling.RoundTripIsNorm: leaves out DynamoDB's own limits (38 digits, item size, exponents) and floats that are not finite.
- Scrub.ScrubbedIsClean: bounds no dict by its number of entries, since the program does not.
- Heartbeat.VisibilityHeartbeat.Loop: the thread and its stop event are a schedule of the beats that happened.
- Retry.CallWithRetry: exceptions that are neither `ClientError` nor `BotoCoreError` are one kind of permanent error; floating-point rounding of delays is not kept.
- Service.JobService.CreateJob: the program reads the clock once for the creation and once for the update time; one reading stands for both, and one later reading for the two times of a refused job.
- Routes.UploadRoute.CreateJob: a client that disconnects while the body is read is not modelled.
