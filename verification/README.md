# Verification models for nngpp

This project models the stateful parts of nngpp, the C++ wrapper of nng, and proves properties of the
models with Dafny. `dafny verify dfyconfig.toml` checks all of it.

It covers four things.

**The REST-to-REQ proxy** (`demo/rest/server.cpp`). `RestProxy` is a state machine whose steps are the
sections of the HTTP handler, of the aio callback and of the in-process REP server, and the completions
the library delivers. A section under `job_lock` is one step; starting an operation and
`job.release()` are two, so the callback of an operation may run, recycle the job and see it reused in
between. Every library call that can fail does so nondeterministically, and an exception that reaches
the outer handlers is the absorbing state `exited`. Ownership tokens say who may touch a job, a message
or an HTTP aio; a section without its token sets a fault flag. `RestInvariant`, `RestFrames`,
`RestSafety` and `RestShapes` hold the inductive invariant and its proof, and `RestTheorems` states the
results on the pointers of the program, without tokens. `RestWitness` gives one run that shows how far
those results go. `RestAnswers` explains each answer by what failed for that request, and each exit by
the call that failed. `RestWork` bounds the length of every run. `RestProgress` shows that a reply on its
way reaches its job, that a run without failures which cannot go on has given every request its page,
and that every run that has not exited can still be finished. `RestJobs` has the job objects and the
linked freelist as classes updated in place, each function of the server proved against a function on
values, and `RestSequential` shows for every outcome of the library calls that the sections of the
machine, when nothing interrupts them, have the result of that same function: the job, the freelist,
the answers, the live messages with their bodies and the replies the library keeps.

**The parallel echo servers** (`demo/async/server.cpp`, `demo/raw/raw.cpp`). `EchoSpec` is the delayed
echo both are for, with no threads or aios in it. `EchoServer` is the machine of `n` work items, with
the transport as a parameter; `EchoSafety` and `EchoTheorems` prove that each event of the machine is a
permitted step of the delayed echo. `EchoDelay` settles which delays are honoured. `EchoProgress` settles
which events make the server exit, and when a run can be continued until each request is answered or
dropped and every item is receiving again.

**Ownership** of `buffer`, `msg`, `socket`, `ctx`, `tls::config` and HTTP handlers. Each module has the
wrapper as a class updated in place and a machine that runs any sequence of its special members and of
the calls that take a resource over, over any set of variables and with any call failing.

**Protocols and codecs.** `Throughput` and `Latency` are pairs of processes over bounded FIFOs, under
every schedule. `Rot13`, `BigEndian`, `ReqRep` and `MsgFraming` are the in-place loop, the 64-bit
codec with the date exchange, and the message buffers.

## Where the code does less than one might expect

* A message whose REQ send failed stays in the slot of its job's aio, since recycling clears
  `job->msg` and not the slot. The next request of that job overwrites it. `LossExactly` says that this
  is the one step that loses a message, and `FailedSendCanLose` gives a run.
* `rest_get_job` tests for a null job after `std::make_unique`, which throws instead of returning null.
  The model follows the code: a failed allocation exits.
* `msg` copy assignment frees its message before it duplicates the other one. When that fails the
  wrapper keeps a freed pointer (`FailedCopyFreesTwice`). `buffer` copy assignment has no such case.
* Nothing in the wrapper empties the slot of an aio. `set_msg` into a full slot, a receive that completes
  into one (`SecondReceiveLoses`) and the destruction of an aio with one each lose the message in it.
  `set_msg(msg_view)` and `msg(nng_msg*)` with a message that somebody else owns give it a second owner
  (`SharedViewFreesTwice`), and copying a null `msg` uses a null pointer. `StepLinearIff` says that these
  and the previous case are the ways in which an operation of the model breaks ownership, and that no
  other does.
* The delay in an echo request is read as unsigned and used as a signed duration. `DelayHonouredIff`
  puts the boundary at 2^31 ms. The largest delay, 2^32 - 1, becomes -1, nng's infinite duration; the
  model takes as a parameter whether such a sleep ever ends, and where it does not that request is not
  answered too early but never.
* The echo server does not look at the result of its sleep, so a sleep that fails is followed by the
  reply at once. `FailedSleepsIff` says that then no delay but zero is kept to. The comment of `work`
  speaks of a list sorted by expiration time; the code has none.
* The destructors of `socket` and `ctx` ignore a failing close. `OrphansExactly` says that a handle is
  left open with no owner in this case only.
* The ROT13 loop counts with an `int`. `LoopIsRot13Iff` puts the boundary at bodies of 2^31 bytes; the
  proxy's bodies are at most 128 KiB.

## What is assumed of the library

* An operation started on an aio completes at most once, with success or an error, and its callback
  runs afterwards on a thread of its own. A successful send takes the message out of the slot; a failed
  one leaves it there. The reply received on a REQ context is one sent for the request of that context,
  and a reply to an open context is not lost on the way. A request already on its way when its context
  is closed may still be served or may be withdrawn.
* A sleep of a nonnegative duration that does not fail ends no earlier than that; a negative duration
  gives no bound, except that -1 may be endless. Time does not go back.
* A failed call changes nothing, a null message is not taken for sending, an allocation returns null or
  something unused, closing a handle either closes it, finds it closed, or fails and leaves it open, and
  handle numbers are not reused.
* Characters are ASCII in the C locale, and the FIFOs of a `pair` socket lose nothing.

## Model

| member | source | states |
|---|---|---|
| RestTheorems.NeverMisuses | demo/rest/server.cpp:58-207 | In every run no thread touches a job after another took it over, follows a null pointer, frees a message twice, or finishes an HTTP aio it need not answer. |
| RestTheorems.ExactlyOneUser | demo/rest/server.cpp:117-121 | Also between starting an operation and `job.release()`, each allocated job is at one position of the freelist, with one thread that has sections left on it, or with the library, never two of these; nothing unallocated is used. |
| RestTheorems.FreeJobsAreClean | demo/rest/server.cpp:58-66 | Every job on the freelist has a null `http_aio`, `http_res`, `msg` and `ctx`. |
| RestTheorems.AnsweredOnce | demo/rest/server.cpp:88-207 | An accepted HTTP aio is finished, or else exactly one running thread or one job in use still has to answer it. |
| RestTheorems.AnswersStand | demo/rest/server.cpp:97-100 | However a run continues, an answer given is never replaced by another. |
| RestTheorems.AcceptedIsArrived | demo/rest/server.cpp:164-187 | Over every run, what the handlers take as the body of an HTTP aio is `body` if and only if some event of the run was the arrival of that aio with that body. |
| RestTheorems.PagesAnswerTheirRequest | demo/rest/server.cpp:131-144 | For any interleaving and any reuse of jobs, each page given to an HTTP aio is the ROT13 of the body that arrived with that aio in the run. |
| RestTheorems.AtMostOneOwner | demo/rest/server.cpp:187-195 | No message is pointed at by two of `job->msg`, an aio slot, a socket and the REP server, and none of these points at a freed message. |
| RestTheorems.OnlyFailedSendsAreLost | demo/rest/server.cpp:111-115 | A message nobody points at any more is one whose REQ send some event of the run reported as failed. |
| RestTheorems.NoFailedSendNoLoss | demo/rest/server.cpp:111-131 | A run in which no REQ send fails loses no message. |
| RestTheorems.FailedMeansFailed | demo/rest/server.cpp:111-115 | The messages recorded as failed are exactly those whose send some event of the run reported as failed. |
| RestTheorems.LossExactly | demo/rest/server.cpp:194-197 | A step loses a message if and only if it fills an aio slot that still holds it. |
| RestTheorems.FailedSlotStays | demo/rest/server.cpp:58-61 | A slot holding a message whose send failed keeps it through recycling and reuse until the job's next request fills the slot. |
| RestTheorems.LeaksAtRest | demo/rest/server.cpp:58-66 | When everything has come to rest every aio is answered, every job is free, and the live messages are exactly those whose send failed. |
| RestAnswers.AnswerIsExplained | demo/rest/server.cpp:88-199 | Over every run, whatever happens to other requests: an HTTP aio was refused if and only if making its response object or opening its context failed, got an error page if and only if making its message, the send, the receive or copying out the reply failed, and got its page if and only if none of these did. |
| RestAnswers.StepFated | demo/rest/server.cpp:88-199 | An event turns a request from its page to another answer exactly by one of these failures, at most once, and changes nothing for any other request. |
| RestAnswers.ExitsIff | demo/rest/server.cpp:200-207 | In every state of the invariant an event makes the proxy exit if and only if it is a failed allocation of a job, a failed response or error page, a failed close of an open context, or a failed receive or send of the REP server. |
| RestAnswers.ExitedIff | demo/rest/server.cpp:200-207 | The proxy has exited after a run if and only if one of these failures happened in it. |
| RestTheorems.FreeAndCheckedOut | demo/rest/server.cpp:68-86 | Jobs allocated or being allocated are the free ones and the checked-out ones. |
| RestTheorems.StepAllocated | demo/rest/server.cpp:71-81 | A step allocates at most one job, and only when the freelist is empty. |
| RestTheorems.AllocatedIsPeak | demo/rest/server.cpp:63-86 | Over every run the number of jobs ever allocated equals the largest number checked out at one time. |
| RestSafety.StepInv | demo/rest/server.cpp:58-284 | Every section and every completion keeps the invariant on jobs, aios, messages, contexts and page contents. |
| RestSafety.RunInv | demo/rest/server.cpp:58-284 | The invariant holds after every run. |
| RestWitness.HandOffOverlaps | demo/rest/server.cpp:195-198 | A handler that has not yet released its pointer can find its job answered, recycled and taken by a second request. |
| RestWitness.FailedSendCanLose | demo/rest/server.cpp:111-115 | One run with a failed send in which the message is lost. |
| RestWork.WorkDecreases | demo/rest/server.cpp:58-284 | Every event other than an accepted request strictly lowers a count of the work left to all threads, operations, and messages on their way, unless the program exits. |
| RestWork.RunBound | demo/rest/server.cpp:88-207 | In any run, of any interleaving and any outcomes, at most 27 events happen for each request accepted in it. |
| RestProgress.NotStuck | demo/rest/server.cpp:58-284 | A state that has not exited and is not at rest has an event that can happen without a new request and without a failure: a reply awaited is on its way, at the server or there to be received. |
| RestProgress.EveryRequestAnswered | demo/rest/server.cpp:88-207 | A run that can go on with new requests and failures only has exited or has finished every accepted HTTP aio. |
| RestProgress.UnharmedGetsItsPage | demo/rest/server.cpp:88-207 | In such a run that has not exited, a request for which nothing failed was answered with the ROT13 of the body it arrived with, whatever failed for others. |
| RestProgress.EveryRequestGetsItsPage | demo/rest/server.cpp:88-207 | If no failure happened in such a run, every request that arrived in it was answered with the ROT13 of the body it arrived with. |
| RestProgress.CanComeToRest | demo/rest/server.cpp:58-284 | However a run went, failures included, if it has not exited it can come to rest without a new request and without a further failure. |
| RestProgress.PagesCanBeReached | demo/rest/server.cpp:88-207 | Every run without failures can be continued so that each request that arrived in it gets the ROT13 of the body it arrived with. |
| RestProgress.OnePage | demo/rest/server.cpp:164-199 | From the start, for every body of at most 128 KiB, a run in which a request arrives and is answered with the ROT13 of that body. |
| RestProgress.NothingForbidden | demo/rest/server.cpp:58-284 | Until the program exits, a request with any body up to 128 KiB can arrive in any state, and every section, completion and call of the library can have each of its outcomes. |
| RestJobs.JobPool.RestRecycleJob | demo/rest/server.cpp:58-66 | The job is cleared, except for its aio slot, its message freed, and it becomes the head of the linked freelist; a close that fails exits with the job cleared but not on the list. |
| RestJobs.JobPool.Push | demo/rest/server.cpp:63-65 | The list with the job at its head stays acyclic and free of duplicates. |
| RestJobs.JobPool.RestGetJob | demo/rest/server.cpp:68-86 | The head is unlinked and handed out if there is one; otherwise a new job, or none where the allocation throws. |
| RestJobs.JobPool.RecycleThenGet | demo/rest/server.cpp:64-74 | The job recycled last is handed out next and the list is as before. |
| RestJobs.JobPool.RestHttpFatal | demo/rest/server.cpp:88-102 | The aio taken out of the job gets an error page and the job is recycled; an exception exits before or after the answer, as the call that threw. |
| RestJobs.JobPool.RestJobCb | demo/rest/server.cpp:104-152 | For every state, result and outcome the job, the messages, the freelist and the answers are those of the callback on values: a sent request turns to receiving, an error becomes an error page, a reply its page. |
| RestJobs.JobPool.RestReply | demo/rest/server.cpp:131-147 | The page is the body of the message that was in the job's slot, which is freed when the job is recycled. |
| RestJobs.JobPool.RestServe | demo/rest/server.cpp:173-198 | For a checked-out job and every outcome: refused and recycled, answered with an error page and recycled, loaded and sent, or exited. |
| RestJobs.JobPool.RestSubmit | demo/rest/server.cpp:183-198 | The job takes the aio and its slot holds a message with the request body, or the aio gets an error page. |
| RestJobs.JobPool.RestHandle | demo/rest/server.cpp:164-199 | The handler as a whole: which job it uses, how it ends, and the job, the messages, the freelist and the answers then; without a job it exits. |
| RestJobs.ChainTail | demo/rest/server.cpp:73-74 | Following the head's link gives the list without its head, which occurs nowhere else in it. |
| RestSequential.RecycleAlone | demo/rest/server.cpp:58-66 | The sections of recycling, uninterrupted, have the result of the method, messages included: cleared, with its message and the reply kept for its context freed, and at the head of the freelist, or exited. |
| RestSequential.FatalAlone | demo/rest/server.cpp:88-102 | The sections of the error path have the result of the method, messages included, whichever call throws. |
| RestSequential.ReplyAlone | demo/rest/server.cpp:131-147 | The sections that answer with a reply have the result of the method, messages included. |
| RestSequential.CallbackAlone | demo/rest/server.cpp:104-152 | In every state of the invariant, the sections of the callback have the result of the method, messages included, for each state of the job and each outcome. |
| RestSequential.SubmitAlone | demo/rest/server.cpp:183-198 | The sections of submitting have the result of the method, messages included, so the slot's message has the request body. |
| RestSequential.ServeAlone | demo/rest/server.cpp:173-198 | The sections of the handler for a checked-out job have the result of the method, messages included. |
| RestSequential.HandleAlone | demo/rest/server.cpp:164-199 | In every state of the invariant, the sections of the handler, from taking or allocating a job on, have the result of the method, messages included. |
| Rot13.Turn | demo/rest/server.cpp:264-272 | In character codes: 65 to 77 and 97 to 109 go up by thirteen, 78 to 90 and 110 to 122 go down by thirteen, and every other byte stays. |
| Rot13.Rot13InPlace | demo/rest/server.cpp:259-273 | The loop turns the bytes below the `int` it counts to and keeps the rest, for arrays of every size. |
| Rot13.Involution | demo/rest/server.cpp:264-272 | Applied twice, ROT13 restores the body. |
| Rot13.LoopIsRot13Iff | demo/rest/server.cpp:261-262 | The loop is ROT13 on all bodies of a size if and only if that size is below 2^31. |
| EchoTheorems.OneOperation | demo/async/server.cpp:35-86 | Each started item is with exactly one thread or one operation, of the kind its state names, and the others are untouched; this also holds when a completion fires before the starting call returns. |
| EchoTheorems.BothTransportsRefine | demo/raw/raw.cpp:35-95 | Over contexts and over one raw socket, each event of the server is a permitted step of the delayed echo or none. |
| EchoTheorems.RequestsAccounted | demo/async/server.cpp:44-81 | Over every run each request is dropped, answered or held, exactly once; every reply is right; at most `n` requests are open. |
| EchoTheorems.EachRequestKnown | demo/async/server.cpp:44-81 | Over every run each single request received is at a worker, or was dropped, or was answered. |
| EchoTheorems.RunInv | demo/async/server.cpp:35-110 | The invariant of the items, threads and operations holds after every run. |
| EchoSpec.AccountedStep | demo/async/server.cpp:44-81 | Each permitted step of the delayed echo keeps received = dropped + answered + held, with no request in two of these. |
| EchoSpec.FaithfulStep | demo/async/server.cpp:52-70 | Each permitted step keeps every reply equal to its request's route and body without the first four bytes, and only bodies too short for the delay are dropped. |
| EchoSpec.OpenBound | demo/async/server.cpp:101-110 | No more requests are open than there are items. |
| EchoSafety.EnterInv | demo/async/server.cpp:39-85 | The callback is entered by the thread entitled to the item, in a state it handles; the default branch is not reached. |
| EchoServer.WorkItem.ServerCb | demo/async/server.cpp:35-86 | The callback updates state, message and aio slot in place and starts what the transition function says, in every state and for every outcome. |
| EchoServer.StartUp | demo/async/server.cpp:101-110 | The start-up loops make distinct items, all of them receiving. |
| EchoDelay.ShortDelaysHonoured | demo/async/server.cpp:63-71 | In a run in which no sleep fails, no reply to a request for a delay below 2^31 ms is sent before that delay has passed. |
| EchoDelay.EarlyMeansCutOrLong | demo/async/server.cpp:63-71 | In any run, an early reply is to a request whose sleep some event of the run reported as failed, or whose delay is 2^31 ms or more. |
| EchoDelay.CutMeansFailedSleep | demo/async/server.cpp:64-70 | The requests recorded as cut short are exactly those whose sleep some event of the run reported as failed. |
| EchoDelay.LongDelayIgnored | demo/async/server.cpp:64 | For each delay from 2^31 ms on, except one that never ends, a run without a failed sleep in which the reply is too early. |
| EchoDelay.DelayHonouredIff | demo/async/server.cpp:37-64 | In all runs without a failed sleep, on both transports and for any number of items, a delay is honoured if and only if it is below 2^31 ms, or is 2^32 - 1 and such a sleep never ends. |
| EchoDelay.FailedSleepsIff | demo/async/server.cpp:63-71 | If sleeps may fail, a delay is honoured in all runs if and only if it is zero. |
| EchoDelay.ClientDelay | demo/async/client.cpp:18-19 | The server sleeps for the very `int` the client was given, negative ones included. |
| EchoProgress.ExitsIff | demo/async/server.cpp:44-81 | In every state of the invariant, an event makes the server exit if and only if it enters the callback of an item in RECV or SEND whose operation failed. |
| EchoProgress.Prospects | demo/async/server.cpp:44-81 | An item begins to fail exactly by a receive or a send that reports an error, and to hang exactly by a request whose sleep never ends; nothing but a failing sleep ends either. |
| EchoProgress.NoFailureNoExit | demo/async/server.cpp:87-94 | A run in which no receive and no send fails never exits, whatever its sleeps do. |
| EchoProgress.WorkDecreases | demo/async/server.cpp:35-110 | Every event but a new request, a failure and the passing of time strictly lowers a count of what the threads and operations still have to do, unless the server exits. |
| EchoProgress.GoesOn | demo/async/server.cpp:35-110 | A state in which no item fails or hangs, and in which not every item is receiving, has an event that can happen, if need be after some time, without a new request and without a failure. |
| EchoProgress.SettlesIff | demo/async/server.cpp:72-114 | A run that has not exited can be continued without a failure and without a new request until every item is receiving again and no request is held, if and only if no item has failed or is in a sleep that never ends. |
| EchoProgress.SettledIsAnswered | demo/async/server.cpp:54-80 | Once everything has settled, each request ever received has been answered, or was too short and was dropped. |
| EchoProgress.NothingForbidden | demo/async/server.cpp:35-110 | Until the server exits, every item that receives may receive any request, every operation may succeed or fail, a sleep as soon as it is over, and time may pass. |
| Throughput.ClientStepInv | perf/throughput.h:41-55 | A call of the client keeps the account of what is in the FIFOs and brings the end one call nearer. |
| Throughput.ServerStepInv | perf/throughput.h:15-28 | The same for the server, and the size check fails only when the two sizes differ. |
| Throughput.NoDeadlock | perf/throughput.h:8-55 | With room for one message each way the two get stuck only by finishing, or by the server dying of a size mismatch. |
| Throughput.ExactlyExchanged | perf/throughput.h:47-54 | At the end `count + 1` messages went one way and one the other, and none is left. |
| Throughput.AnySchedule | perf/throughput.h:8-55 | All of this under every schedule of the two processes. |
| Throughput.RunBoth | perf/throughput.h:8-55 | Scheduled in any order, both processes end after the same number of calls, `2 * count + 4`. |
| Latency.ClientStepInv | perf/latency.h:16-20 | A call of the client keeps exactly one message in circulation, of the size it was made with. |
| Latency.ServerStepInv | perf/latency.h:34-40 | The same for the server, which dies only of a size mismatch. |
| Latency.OneMessageCirculates | perf/latency.h:16-40 | Under every schedule and for any trip count one message exists, and a pair that has stopped has finished with the message back at the client. |
| Latency.PingPong | perf/latency.h:16-40 | Scheduled in any order, both processes end, after four calls a trip. |
| Buffers.OwnershipIsLinear | include/nngpp/buffer.h:11-66 | Over any sequence of operations, allocation failures included, no block is freed twice or with a wrong size, shared or lost. |
| Buffers.ExactlyOneOwner | include/nngpp/buffer.h:11-66 | A block is live if and only if a wrapper or the caller owns it, and it has one owner only. |
| Buffers.NothingLeaks | include/nngpp/buffer.h:57-66 | When all wrappers are gone, only what was released to the caller is live. |
| Buffers.BlocksAfter | include/nngpp/buffer.h:9-66 | For every operation, block and owner: which blocks it makes and frees, who gets the one it makes or hands on, and that all others stay with their owners. |
| Buffers.ContentsAfter | include/nngpp/buffer.h:30-66 | Moving, releasing, adopting, sending and receiving change the contents of no block. |
| Buffers.CopyInitCopies | include/nngpp/buffer.h:21-23 | A copy-constructed buffer has the size and the contents of its source and nothing else changes; when the allocation fails the world is as it was. |
| Buffers.CopyAssignLinear | include/nngpp/buffer.h:30-44 | Copy assignment keeps ownership, also when its allocation fails after the old block was freed. |
| Buffers.CopyCopies | include/nngpp/buffer.h:30-44 | A copy has the contents of its source, no other wrapper changes, and a failed one leaves its target empty. |
| Buffers.SendFreesOrKeeps | include/nngpp/socket_view.h:52-59 | A consuming send has freed the block when it succeeds and left it with its one owner when it throws. |
| Buffers.RecvAdopts | include/nngpp/socket_view.h:96-104 | What is received is a block the wrapper alone owns, with its size and contents; a receive that throws changes nothing. |
| Buffers.AdoptIff | include/nngpp/buffer.h:11-12 | A pointer with a size can be adopted if and only if it is null and empty, or the caller's with the size of its block. |
| Buffers.Buffer.OfSize | include/nngpp/buffer.h:14-19 | A wrapper of a fresh block of that size, or, when the allocation fails, an exception and an unchanged heap. |
| Buffers.Buffer.CopyOf | include/nngpp/buffer.h:21-23 | A wrapper of a fresh block with the contents of the source, or, when the allocation fails, an exception and an unchanged heap. |
| Buffers.Buffer.CopyAssign | include/nngpp/buffer.h:30-44 | The in-place assignment, self-assignment included, does to wrapper and heap what the machine's operation does. |
| Buffers.Buffer.MoveAssign | include/nngpp/buffer.h:46-55 | The old block is freed with its size, the new one taken and the source emptied; self-assignment changes nothing. |
| Buffers.Buffer.Release | include/nngpp/buffer.h:61-66 | The caller gets the pointer and the wrapper is empty. |
| Buffers.Buffer.Send | include/nngpp/socket_view.h:52-59 | The wrapper is emptied exactly when the library took the bytes. |
| Messages.StepLinearIff | include/nngpp/msg.h:10-51 | An operation on wrappers, slots or aios keeps every message with exactly one owner if and only if it copies from a full wrapper, replaces nothing when its duplication fails, adopts or stores only null or what the caller owns, and sets, receives into or destroys only an empty slot. |
| Messages.OwnershipIsLinear | include/nngpp/msg.h:10-51 | Over any run of such operations no message is freed twice, used after its free, shared or lost. |
| Messages.MovesNeedEmptiedSlots | include/nngpp/aio_view.h:64-68 | A run without copies, adoptions and slots set by hand keeps ownership if each receive meets an emptied slot and each aio is destroyed with one. |
| Messages.SecondReceiveLoses | include/nngpp/socket_view.h:124-126 | Two receives on one aio with nothing taken out between them leave the first message live and without an owner. |
| Messages.ExactlyOneOwner | include/nngpp/msg.h:10-51 | Under that invariant a message is live if and only if some wrapper, slot, socket or caller owns it, and one only. |
| Messages.BodiesAfter | include/nngpp/msg.h:10-51 | For every careful operation and message: which messages it makes, with which bodies, which it frees, and that all others live on with the bodies they had; a copy has the body of its source. |
| Messages.OwnersAfter | include/nngpp/msg.h:10-51 | For every careful operation, message and owner: who gets the message it makes or hands on, and that all others stay with their owners. |
| Messages.CellsAfter | include/nngpp/aio_view.h:52-68 | Which wrappers and slots exist after an operation, and that it leaves those it is not for as they were. |
| Messages.FailedCopyFreesTwice | include/nngpp/msg.h:31-44 | After a copy assignment whose duplication failed, the destructor frees the same message again. |
| Messages.SharedViewFreesTwice | include/nngpp/aio_view.h:52-68 | A view of a wrapper's message put into a slot and released from it gives two wrappers that free it twice. |
| Messages.CopyCopies | include/nngpp/msg.h:31-40 | A successful copy assignment replaces the old message by a new one with the same body and changes no other. |
| Messages.SendHandsOver | include/nngpp/socket_view.h:61-68 | After a consuming send the message's one owner is the library or, when it threw, the wrapper. |
| Messages.SlotRoundTrip | include/nngpp/aio_view.h:56-68 | Setting a slot and releasing it gives the message back and leaves the slot empty. |
| Messages.Msg.CopyOf | include/nngpp/msg.h:20-25 | A wrapper of a new message with the body of the source, or, when the duplication fails, an exception and nothing changed. |
| Messages.Msg.CopyAssign | include/nngpp/msg.h:31-40 | The in-place assignment frees, duplicates and keeps the old pointer on failure, as the machine's operation does. |
| Messages.Msg.MoveAssign | include/nngpp/msg.h:42-49 | The old message is freed, the new one taken and the source emptied; self-assignment changes nothing. |
| Messages.Socket.Send | include/nngpp/socket_view.h:61-68 | The wrapper is emptied exactly when the socket took the message. |
| Messages.Socket.RecvMsg | include/nngpp/socket_view.h:112-119 | The new wrapper owns the message and the socket no longer does; a receive that throws changes nothing. |
| Messages.Aio.SetMsg | include/nngpp/aio_view.h:56-58 | The message passes from the wrapper to the slot. |
| Messages.Aio.SetView | include/nngpp/aio_view.h:52-54 | The slot points at the message and nobody gives it up. |
| Messages.Aio.ReleaseMsg | include/nngpp/aio_view.h:64-68 | The message passes from the slot to a new wrapper and the slot is empty. |
| Handles.AtMostOneOwner | include/nngpp/socket.h:15-43 | Over any run, whichever closes fail, no handle has two owners. |
| Handles.OpenExactly | include/nngpp/ctx.h:14-45 | Over every run, a nonzero handle is open if and only if some operation opened it and no later one closed it: a move assignment or a destruction whose close succeeded, or a close from outside. |
| Handles.OwnedIsOpen | include/nngpp/socket.h:15-43 | A handle that a wrapper or the caller owns is open, unless it was closed from outside. |
| Handles.OwnersAfter | include/nngpp/ctx.h:12-51 | For every operation, handle and owner: who gets the handle it opens or hands on, and that all others stay with their owners. |
| Handles.MoveAssignThrowsOrReplaces | include/nngpp/ctx.h:29-41 | Move assignment throws exactly when a close fails and then changes neither operand; otherwise what it replaced is closed. |
| Handles.OrphansExactly | include/nngpp/ctx.h:43-45 | Over every run, a handle is open with no owner if and only if some destructor dropped it while its close failed, and nothing closed it since. |
| Handles.AdoptIff | include/nngpp/socket.h:11 | A handle can be adopted if and only if it is zero, the caller's, or one that was issued and that nobody owns. |
| Handles.Handle.MoveAssign | include/nngpp/socket.h:21-33 | The in-place assignment, self-assignment included, does what the machine's operation does. |
| Handles.Handle.Release | include/nngpp/socket.h:39-43 | The caller gets the handle and the wrapper is empty. |
| TlsConfig.CountIsOwners | include/nngpp/transport/tls/config.h:13-52 | Over any run a configuration exists if and only if someone owns a reference, and its count is the number of wrappers, library references and caller references. |
| TlsConfig.StepCountedIff | include/nngpp/transport/tls/config.h:49-52 | An operation keeps the count equal to the owners if and only if it takes no reference on a null or reclaimed configuration. |
| TlsConfig.ReclaimedByTheLastOwner | include/nngpp/transport/tls/config.h:28-39 | A step reclaims a configuration if and only if it gives up the last reference. |
| TlsConfig.OwnersStep | include/nngpp/transport/tls/config.h:13-52 | Moves and releases leave the number of owners as it is; only taking and dropping references change it, by one. |
| TlsConfig.ReferencesAfter | include/nngpp/transport/tls/config.h:11-52 | For every operation and configuration, owner by owner: who gets a reference, who gives one up, and that all other references stay. |
| TlsConfig.AdoptIff | include/nngpp/transport/tls/config.h:11 | A pointer can be adopted if and only if it is null or a reference the caller has. |
| TlsConfig.Config.Hold | include/nngpp/transport/tls/config.h:49-52 | A second wrapper of the same configuration, counted once more. |
| TlsConfig.Config.MoveAssign | include/nngpp/transport/tls/config.h:28-35 | The old reference is dropped, the new one taken over uncounted and the source emptied. |
| Handlers.OwnershipIsLinear | include/nngpp/http/server_view.h:41-56 | Over any run, failing additions and removals and servers shutting down included, every live handler has exactly one owner. |
| Handlers.HandlersAfter | include/nngpp/http/handler.h:14-71 | For every operation, handler and owner: which handlers it makes and frees, who gets the one it makes or hands on, and that all others stay with their owners. |
| Handlers.AddHandsOver | include/nngpp/http/server_view.h:41-48 | After `add_handler` the one owner is the server or, when it threw, the wrapper. |
| Handlers.RemoveHandsBack | include/nngpp/http/server_view.h:50-56 | After `remove_handler` through any view the new wrapper is the one owner or, when it threw, nothing changed. |
| Handlers.AddRemove | include/nngpp/http/server_view.h:41-56 | Adding a handler and removing it again restores what the wrapper had. |
| Handlers.AdoptIff | include/nngpp/http/handler.h:14 | A pointer can be adopted if and only if it is null or the caller's. |
| Handlers.Server.AddHandler | include/nngpp/http/server_view.h:41-48 | The wrapper is emptied exactly when the server took the handler. |
| Handlers.Server.RemoveHandler | include/nngpp/http/server_view.h:50-56 | A handler the server has passes to a new wrapper; any other view throws and changes nothing. |
| BigEndian.Put64 | demo/reqrep/reqrep.cpp:17-27 | The eight shifted bytes are the big-endian encoding, and bytes after them are kept. |
| BigEndian.Get64 | demo/reqrep/reqrep.cpp:29-37 | The sum of shifted bytes is the big-endian value. |
| BigEndian.DecodeEncode | include/nngpp/msg_body.h:66-85 | Decoding the encoding of a value that fits its width gives the value, for every width. |
| BigEndian.EncodeDecode | include/nngpp/msg_body.h:108-133 | Encoding the value of any bytes gives the bytes. |
| ReqRep.Inverse | demo/reqrep/reqrep.cpp:17-37 | `PUT64` and `GET64` are mutually inverse on all 64-bit values and all arrays of eight bytes. |
| ReqRep.RequestBytes | demo/reqrep/reqrep.cpp:15-27 | The date request is seven zero bytes and a one. |
| ReqRep.Serve | demo/reqrep/reqrep.cpp:47-58 | A buffer is answered exactly when it is a date request, with the time in that same buffer; any other is untouched. |
| ReqRep.OnlyTheRequestIsAnswered | demo/reqrep/reqrep.cpp:49 | The eight bytes the client sends are the only buffer the server answers. |
| ReqRep.Exchange | demo/reqrep/reqrep.cpp:68-77 | The client reads exactly the time the server wrote, for all 64-bit times. |
| MsgFraming.Part.Append | include/nngpp/msg_body.h:38-43 | Bytes are added at the end, or the call throws and the buffer is as before. |
| MsgFraming.Part.Insert | include/nngpp/msg_body.h:45-50 | Bytes are added at the front, or the call throws and the buffer is as before. |
| MsgFraming.Part.Trim | test/message.cpp:106-122 | The first bytes go if there are as many; otherwise the call throws and the buffer is as before. |
| MsgFraming.Part.Chop | test/message.cpp:106-122 | The last bytes go if there are as many; otherwise the call throws and the buffer is as before. |
| MsgFraming.Part.AppendUint | include/nngpp/msg_body.h:66-85 | The big-endian bytes of the integer are added at the end. |
| MsgFraming.Part.InsertUint | include/nngpp/msg_body.h:87-106 | The big-endian bytes of the integer are added at the front. |
| MsgFraming.Part.TrimUint | include/nngpp/msg_body.h:108-133 | The integer returned and the bytes left are what the buffer was made of. |
| MsgFraming.Part.ChopUint | include/nngpp/msg_body.h:135-160 | The same at the other end. |
| MsgFraming.TrimYieldsFirst | include/nngpp/msg_body.h:108-133 | Trimming a buffer that frames a list of integers yields the first and leaves the others framed. |
| MsgFraming.ChopYieldsLast | include/nngpp/msg_body.h:135-160 | Chopping it yields the last and leaves the others framed. |
| MsgFraming.Deque | test/message.cpp:198-238 | Integers put in at the two ends come out there, whatever the buffer frames, and leave it as it was. |
| MsgFraming.Message.TrimDelay | demo/raw/raw.cpp:52-62 | Reading the delay takes four bytes off the body, or throws and leaves it, and never touches the header with the routing. |
| MsgFraming.Message.PushPopHop | include/nngpp/msg_header.h:34-130 | An integer inserted into the header comes off it again, and the body is as it was. |

## Left out

- Options, option-name tables, protocol `open` functions, transports, stats, URLs, streams and the HTTP request and response accessors: thin forwarding to nng.
- The inside of nng (sockets, resends of the REQ protocol, HTTP server, timers, task queues): a nondeterministic environment with the contracts listed above.
- Printing, argument parsing, `main`, pauses, timing arithmetic in floats, and the 5 s receive timeout of the throughput client, which could end a run early.
- `demo/http_client/http_client.cpp`, `perf/misc.h` and the drivers in `test/` other than the message contract: they would only add easy members.
- Fairness: whether the library completes an operation or the system runs a thread is not modelled; `RunBound`, `EveryRequestAnswered` and `EveryRequestGetsItsPage` say what follows once they do. The echo servers run forever; `SettlesIff` says when what they hold can be finished.
- Weak memory: sections of different threads interleave, they do not overlap. The code between two points where another thread can see its effects is one section, under a lock or not.
- RestJobs.JobPool.RestHandle: one function at a time; callbacks that run before a handler has released its pointer are part of the state machine only.
- EchoServer.StartUp: the items' operations complete only in the state machine, where `Launch` starts the items one by one while callbacks already run.
- EchoDelay.ClientDelay: `atoi` and, in the raw client, the multiplication by 1000, which can overflow, are not part of this model; the `int` they give is the input.
- Rot13.Turn: `isupper` and `islower` on a negative `char` are undefined in C; bytes above 127 are kept, as the C locale does on common platforms.
- Handles.OrphansExactly: handle numbers wrapping around after 2^31 handles would let a stale wrapper meet a new handle; numbers are taken never to be reused.
- Buffers.OwnershipIsLinear: a raw pointer is adopted by the constructor only if the caller released it, and with the size it was allocated with; `AdoptIff` says that this is exactly what the constructor needs.
- Handles.AtMostOneOwner: only handles the caller released are adopted; `AdoptIff` gives the exact condition.
- Handlers.OwnershipIsLinear: only pointers the caller released are adopted; `AdoptIff` says that this is exactly what the constructor needs.
- Messages.OwnershipIsLinear: runs with the careless operations above are excluded by `CarefulRun`; `StepLinearIff` says that these are exactly the ones to exclude.
- TlsConfig.CountIsOwners: `hold` through a view of a null or reclaimed configuration is excluded by `CarefulRun`; `StepCountedIff` says that this is exactly what has to be excluded. Only references the caller released are adopted; `AdoptIff` says that this is exactly what the constructor needs.
- Allocations that throw inside constructors of aios, threads and mutexes at start-up, before any request exists.
