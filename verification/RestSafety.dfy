/** Every section of the proxy and every step of its environment keeps the invariant. */
module RestSafety {
  import opened Bytes
  import opened RestProxy
  import opened RestInvariant
  import opened RestFrames
  import Rot13

  // ---- Sections of a thread that holds a job ----

  predicate Holding(s: State, t: ThreadId, j: JobId) {
    && t in s.threads && JobOf(s.threads[t]) == Some(j)
    && j in s.pool.jobs && j in s.pool.holder && s.pool.holder[j] == ByThread(t)
  }

  predicate Runs(s: State, s': State, t: ThreadId, j: JobId, ok: bool, id: int) {
    Holding(s, t, j) && Enabled(s, Run(t, ok, id)) && s' == JobSection(s, t, j, ok, id)
  }

  /** Thread `t` is about to run `pc` on `j` and knows what there is to know of it. */
  predicate AboutTo(s: State, t: ThreadId, j: JobId, pc: Thread) {
    Holding(s, t, j) && s.threads[t] == pc && JobReady(s, pc, s.pool.jobs[j])
  }

  lemma HeldReady(s: State, t: ThreadId, j: JobId)
    requires PhaseInv(s) && HolderInv(s.pool, s.threads) && t in s.threads && JobOf(s.threads[t]) == Some(j)
    ensures AboutTo(s, t, j, s.threads[t])
  {
    assert j in s.pool.holder && s.pool.holder[j] == ByThread(t);
    assert Ready(s, j, ByThread(t));
  }

  /** The section worked on `j` only, and whoever holds it afterwards knows what there is to know of it. */
  ghost predicate WorksOn(s: State, s': State, j: JobId) {
    LocalStep(s, s', {j}) && (j in s'.pool.holder ==> Ready(s', j, s'.pool.holder[j]))
  }

  lemma WorkPhase(s: State, s': State, j: JobId)
    requires PhaseInv(s) && HolderInv(s.pool, s.threads) && MsgInv(s.msgs, s.pool.jobs, s.net)
    requires CtxInv(s.net, s.pool.jobs)
    requires WorksOn(s, s', j)
    ensures PhaseInv(s')
  {
    PhaseStep(s, s', {j});
  }

  predicate OwnsCtx(n: Net, j: JobId, c: Option<CtxId>) {
    c.Some? ==> c.value in n.open && n.open[c.value] == j
  }

  /** A library call failed before anything was stored: the thread turns to its error path. */
  lemma GiveUpWorks(s: State, t: ThreadId, j: JobId, pc': Thread)
    requires Holding(s, t, j) && JobOf(pc') == Some(j) && JobReady(Go(s, t, pc'), pc', s.pool.jobs[j])
    ensures WorksOn(s, Go(s, t, pc'), j)
  {
  }

  lemma GiveUpInv(s: State, t: ThreadId, j: JobId, pc': Thread)
    requires Inv(s) && Holding(s, t, j) && JobOf(pc') == Some(j) && AioOf(pc') == AioOf(s.threads[t])
    requires JobReady(Go(s, t, pc'), pc', s.pool.jobs[j])
    ensures Inv(Go(s, t, pc'))
  {
    hide HolderInv, DutyInv, MsgInv, CtxInv, NetInv, PhaseInv, WorksOn;
    GiveUpWorks(s, t, j, pc');
    WorkPhase(s, Go(s, t, pc'), j);
    HolderRuns(s.pool, s.threads, t, pc');
    DutyRuns(s.http, s.pool.jobs, s.threads, t, pc');
  }

  lemma MakeResWorks(s: State, t: ThreadId, j: JobId, a: AioId)
    requires AboutTo(s, t, j, MakeRes(a, j))
    ensures WorksOn(s, DoMakeRes(s, t, a, j, s.pool.jobs[j], true), j)
  {
  }

  lemma MakeResInv(s: State, t: ThreadId, j: JobId, a: AioId)
    requires Inv(s) && AboutTo(s, t, j, MakeRes(a, j))
    ensures Inv(DoMakeRes(s, t, a, j, s.pool.jobs[j], true))
  {
    hide HolderInv, DutyInv, MsgInv, CtxInv, NetInv, PhaseInv, WorksOn;
    var s' := DoMakeRes(s, t, a, j, s.pool.jobs[j], true);
    var job, pc', job' := s.pool.jobs[j], s'.threads[t], s'.pool.jobs[j];
    MakeResWorks(s, t, j, a);
    WorkPhase(s, s', j);
    HolderMoves(s.pool, s.threads, t, pc', j, job');
    DutyStays(s.http, s.pool.jobs, s.threads, t, pc', j, job');
    MsgStays(s.msgs, s.pool.jobs, s.net, j, job', s'.net);
    CtxStays(s.net, s.pool.jobs, j, job');
  }

  lemma OpenCtxWorks(s: State, t: ThreadId, j: JobId, a: AioId, c: CtxId)
    requires AboutTo(s, t, j, OpenCtx(a, j)) && CtxInv(s.net, s.pool.jobs) && c !in s.net.used
    ensures WorksOn(s, DoOpenCtx(s, t, a, j, s.pool.jobs[j], true, c), j)
  {
  }

  lemma OpenCtxInv(s: State, t: ThreadId, j: JobId, a: AioId, c: CtxId)
    requires Inv(s) && AboutTo(s, t, j, OpenCtx(a, j)) && c !in s.net.used
    ensures Inv(DoOpenCtx(s, t, a, j, s.pool.jobs[j], true, c))
  {
    hide HolderInv, DutyInv, MsgInv, CtxInv, NetInv, PhaseInv, WorksOn;
    var s' := DoOpenCtx(s, t, a, j, s.pool.jobs[j], true, c);
    var job, pc', job' := s.pool.jobs[j], s'.threads[t], s'.pool.jobs[j];
    OpenCtxWorks(s, t, j, a, c);
    WorkPhase(s, s', j);
    HolderMoves(s.pool, s.threads, t, pc', j, job');
    DutyStays(s.http, s.pool.jobs, s.threads, t, pc', j, job');
    MsgStays(s.msgs, s.pool.jobs, s.net, j, job', s'.net);
    CtxOpens(s.net, s.pool.jobs, j, job', c);
    NetSame(s.net, s.msgs, s'.net, s'.msgs);
  }

  lemma AttachWorks(s: State, t: ThreadId, j: JobId, a: AioId)
    requires AboutTo(s, t, j, Attach(a, j)) && a in s.http.accepted
    ensures WorksOn(s, DoAttach(s, t, a, j, s.pool.jobs[j]), j)
  {
  }

  lemma AttachInv(s: State, t: ThreadId, j: JobId, a: AioId)
    requires Inv(s) && AboutTo(s, t, j, Attach(a, j)) && a in s.http.accepted && AioOf(s.threads[t]) == Some(a)
    requires a in s.http.duty && s.http.duty[a] == Local(t)
    ensures Inv(DoAttach(s, t, a, j, s.pool.jobs[j]))
  {
    hide HolderInv, DutyInv, MsgInv, CtxInv, NetInv, PhaseInv, WorksOn;
    var s' := DoAttach(s, t, a, j, s.pool.jobs[j]);
    var job, pc', job' := s.pool.jobs[j], s'.threads[t], s'.pool.jobs[j];
    AttachWorks(s, t, j, a);
    WorkPhase(s, s', j);
    DutyParks(s.http, s.pool.jobs, s.threads, t, pc', a, j, job');
    HolderMoves(s.pool, s.threads, t, pc', j, job');
    MsgStays(s.msgs, s.pool.jobs, s.net, j, job', s'.net);
    CtxStays(s.net, s.pool.jobs, j, job');
  }

  lemma NewMsgWorks(s: State, t: ThreadId, j: JobId, data: Bytes, m: MsgId)
    requires AboutTo(s, t, j, NewMsg(j, data)) && m !in s.msgs.heap && m !in s.msgs.failed
    ensures WorksOn(s, DoNewMsg(s, t, j, s.pool.jobs[j], data, true, m), j)
  {
  }

  lemma NewMsgInv(s: State, t: ThreadId, j: JobId, data: Bytes, m: MsgId)
    requires Inv(s) && AboutTo(s, t, j, NewMsg(j, data)) && m !in s.msgs.heap && m !in s.msgs.failed
    ensures Inv(DoNewMsg(s, t, j, s.pool.jobs[j], data, true, m))
  {
    hide HolderInv, DutyInv, MsgInv, CtxInv, NetInv, PhaseInv, WorksOn;
    var s' := DoNewMsg(s, t, j, s.pool.jobs[j], data, true, m);
    var job, pc', job' := s.pool.jobs[j], s'.threads[t], s'.pool.jobs[j];
    NewMsgWorks(s, t, j, data, m);
    WorkPhase(s, s', j);
    HolderMoves(s.pool, s.threads, t, pc', j, job');
    DutyStays(s.http, s.pool.jobs, s.threads, t, pc', j, job');
    MsgAllocated(s.msgs, s.pool.jobs, s.net, j, job', m, s'.msgs.heap[m].body);
    CtxStays(s.net, s.pool.jobs, j, job');
    NetSame(s.net, s.msgs, s'.net, s'.msgs);
  }

  lemma LoadWorks(s: State, t: ThreadId, j: JobId, data: Bytes, m: MsgId)
    requires AboutTo(s, t, j, Load(j, data)) && s.pool.jobs[j].msg == Some(m)
    requires Owned(s.msgs, m, JobMsg(j)) && m !in s.msgs.failed
    ensures WorksOn(s, DoLoad(s, t, j, s.pool.jobs[j], data), j)
  {
  }

  lemma LoadInv(s: State, t: ThreadId, j: JobId, data: Bytes, m: MsgId)
    requires Inv(s) && AboutTo(s, t, j, Load(j, data)) && s.pool.jobs[j].msg == Some(m)
    requires Owned(s.msgs, m, JobMsg(j)) && m !in s.msgs.failed
    ensures Inv(DoLoad(s, t, j, s.pool.jobs[j], data))
  {
    hide HolderInv, DutyInv, MsgInv, CtxInv, NetInv, PhaseInv, WorksOn;
    var s' := DoLoad(s, t, j, s.pool.jobs[j], data);
    var job, pc', job' := s.pool.jobs[j], s'.threads[t], s'.pool.jobs[j];
    LoadWorks(s, t, j, data, m);
    WorkPhase(s, s', j);
    HolderMoves(s.pool, s.threads, t, pc', j, job');
    DutyStays(s.http, s.pool.jobs, s.threads, t, pc', j, job');
    MsgLoaded(s.msgs, s.pool.jobs, s.net, j, job', m, data);
    CtxStays(s.net, s.pool.jobs, j, job');
    NetLoads(s.msgs, s.pool.jobs, s.net, j, m, data);
  }

  lemma StartSendWorks(s: State, t: ThreadId, j: JobId)
    requires AboutTo(s, t, j, StartSend(j)) && j !in s.pool.ops
    ensures WorksOn(s, StartOp(s, t, j, s.pool.jobs[j], SendReq), j)
  {
  }

  lemma StartRecvWorks(s: State, t: ThreadId, j: JobId)
    requires AboutTo(s, t, j, StartRecv(j)) && j !in s.pool.ops
    ensures WorksOn(s, StartOp(s, t, j, s.pool.jobs[j], RecvRep), j)
  {
  }

  lemma StartSendInv(s: State, t: ThreadId, j: JobId)
    requires Inv(s) && AboutTo(s, t, j, StartSend(j)) && j !in s.pool.ops
    ensures Inv(StartOp(s, t, j, s.pool.jobs[j], SendReq))
  {
    hide HolderInv, DutyInv, MsgInv, CtxInv, NetInv, PhaseInv, WorksOn;
    var s' := StartOp(s, t, j, s.pool.jobs[j], SendReq);
    StartSendWorks(s, t, j);
    WorkPhase(s, s', j);
    HolderStarts(s.pool, s.threads, t, Releasing, j, Op(SendReq, false));
    DutyRuns(s.http, s.pool.jobs, s.threads, t, Releasing);
  }

  lemma StartRecvInv(s: State, t: ThreadId, j: JobId)
    requires Inv(s) && AboutTo(s, t, j, StartRecv(j)) && j !in s.pool.ops
    ensures Inv(StartOp(s, t, j, s.pool.jobs[j], RecvRep))
  {
    hide HolderInv, DutyInv, MsgInv, CtxInv, NetInv, PhaseInv, WorksOn;
    var s' := StartOp(s, t, j, s.pool.jobs[j], RecvRep);
    StartRecvWorks(s, t, j);
    WorkPhase(s, s', j);
    HolderStarts(s.pool, s.threads, t, Releasing, j, Op(RecvRep, false));
    DutyRuns(s.http, s.pool.jobs, s.threads, t, Releasing);
  }

  /** The callback of a send that succeeded turns to receiving. */
  lemma TurnWorks(s: State, t: ThreadId, j: JobId)
    requires AboutTo(s, t, j, Dispatch(j))
    requires s.pool.jobs[j].succeeded && s.pool.jobs[j].state == SendReq
    ensures WorksOn(s, DoDispatch(s, t, j, s.pool.jobs[j]), j)
  {
  }

  lemma TurnInv(s: State, t: ThreadId, j: JobId)
    requires Inv(s) && AboutTo(s, t, j, Dispatch(j))
    requires s.pool.jobs[j].succeeded && s.pool.jobs[j].state == SendReq
    ensures Inv(DoDispatch(s, t, j, s.pool.jobs[j]))
  {
    hide HolderInv, DutyInv, MsgInv, CtxInv, NetInv, PhaseInv, WorksOn;
    var s' := DoDispatch(s, t, j, s.pool.jobs[j]);
    var job, pc', job' := s.pool.jobs[j], s'.threads[t], s'.pool.jobs[j];
    TurnWorks(s, t, j);
    WorkPhase(s, s', j);
    HolderMoves(s.pool, s.threads, t, pc', j, job');
    DutyStays(s.http, s.pool.jobs, s.threads, t, pc', j, job');
    MsgStays(s.msgs, s.pool.jobs, s.net, j, job', s'.net);
    CtxStays(s.net, s.pool.jobs, j, job');
  }

  lemma ReceivedLocal(s: State, t: ThreadId, j: JobId, m: MsgId)
    requires AboutTo(s, t, j, Dispatch(j)) && Owned(s.msgs, m, JobSlot(j))
    requires s.pool.jobs[j].succeeded && s.pool.jobs[j].state == RecvRep && s.pool.jobs[j].slot == Holds(m)
    ensures LocalStep(s, DoDispatch(s, t, j, s.pool.jobs[j]), {j})
  {
  }

  /** The callback of a receive that succeeded takes the reply out of the slot. */
  lemma ReceivedWorks(s: State, t: ThreadId, j: JobId, m: MsgId)
    requires AboutTo(s, t, j, Dispatch(j))
    requires s.pool.jobs[j].succeeded && s.pool.jobs[j].state == RecvRep && s.pool.jobs[j].slot == Holds(m)
    requires Owned(s.msgs, m, JobSlot(j))
    ensures WorksOn(s, DoDispatch(s, t, j, s.pool.jobs[j]), j)
  {
    hide LocalStep;
    ReceivedLocal(s, t, j, m);
  }

  lemma ReceivedInv(s: State, t: ThreadId, j: JobId, m: MsgId)
    requires Inv(s) && AboutTo(s, t, j, Dispatch(j))
    requires s.pool.jobs[j].succeeded && s.pool.jobs[j].state == RecvRep && s.pool.jobs[j].slot == Holds(m)
    requires Owned(s.msgs, m, JobSlot(j))
    ensures Inv(DoDispatch(s, t, j, s.pool.jobs[j]))
  {
    hide HolderInv, DutyInv, MsgInv, CtxInv, NetInv, PhaseInv, WorksOn;
    var s' := DoDispatch(s, t, j, s.pool.jobs[j]);
    var job, pc', job' := s.pool.jobs[j], s'.threads[t], s'.pool.jobs[j];
    ReceivedWorks(s, t, j, m);
    WorkPhase(s, s', j);
    HolderMoves(s.pool, s.threads, t, pc', j, job');
    DutyStays(s.http, s.pool.jobs, s.threads, t, pc', j, job');
    MsgReleased(s.msgs, s.pool.jobs, s.net, j, job', m);
    CtxStays(s.net, s.pool.jobs, j, job');
    NetSame(s.net, s.msgs, s'.net, s'.msgs);
  }

  lemma ReplyWorks(s: State, t: ThreadId, j: JobId)
    requires AboutTo(s, t, j, Reply(j))
    ensures WorksOn(s, DoReply(s, t, j, s.pool.jobs[j], true), j)
  {
  }

  lemma ReplyInv(s: State, t: ThreadId, j: JobId)
    requires Inv(s) && AboutTo(s, t, j, Reply(j))
    ensures Inv(DoReply(s, t, j, s.pool.jobs[j], true))
  {
    hide HolderInv, DutyInv, MsgInv, CtxInv, NetInv, PhaseInv, WorksOn;
    var s' := DoReply(s, t, j, s.pool.jobs[j], true);
    var job, pc', job' := s.pool.jobs[j], s'.threads[t], s'.pool.jobs[j];
    ReplyWorks(s, t, j);
    WorkPhase(s, s', j);
    HolderMoves(s.pool, s.threads, t, pc', j, job');
    DutyStays(s.http, s.pool.jobs, s.threads, t, pc', j, job');
    MsgStays(s.msgs, s.pool.jobs, s.net, j, job', s'.net);
    CtxStays(s.net, s.pool.jobs, j, job');
  }

  lemma RespondWorks(s: State, t: ThreadId, j: JobId)
    requires AboutTo(s, t, j, Respond(j))
    ensures WorksOn(s, DoRespond(s, t, j, s.pool.jobs[j], true), j)
  {
  }

  lemma RespondInv(s: State, t: ThreadId, j: JobId)
    requires Inv(s) && AboutTo(s, t, j, Respond(j))
    requires s.pool.jobs[j].httpAio.value in s.http.duty && s.http.duty[s.pool.jobs[j].httpAio.value] == Parked(j)
    ensures Inv(DoRespond(s, t, j, s.pool.jobs[j], true))
  {
    hide HolderInv, DutyInv, MsgInv, CtxInv, NetInv, PhaseInv, WorksOn;
    var s' := DoRespond(s, t, j, s.pool.jobs[j], true);
    var job, pc', job' := s.pool.jobs[j], s'.threads[t], s'.pool.jobs[j];
    RespondWorks(s, t, j);
    WorkPhase(s, s', j);
    DutyDoneParked(s.http, s.pool.jobs, s.threads, t, pc', job.httpAio.value, j, job', Page(job.httpRes.value));
    HolderMoves(s.pool, s.threads, t, pc', j, job');
    MsgStays(s.msgs, s.pool.jobs, s.net, j, job', s'.net);
    CtxStays(s.net, s.pool.jobs, j, job');
  }

  lemma FatalWorks(s: State, t: ThreadId, j: JobId)
    requires AboutTo(s, t, j, Fatal(j))
    ensures WorksOn(s, DoFatal(s, t, j, s.pool.jobs[j]), j)
  {
  }

  lemma FatalInv(s: State, t: ThreadId, j: JobId)
    requires Inv(s) && AboutTo(s, t, j, Fatal(j))
    requires s.pool.jobs[j].httpAio.value in s.http.duty && s.http.duty[s.pool.jobs[j].httpAio.value] == Parked(j)
    ensures Inv(DoFatal(s, t, j, s.pool.jobs[j]))
  {
    hide HolderInv, DutyInv, MsgInv, CtxInv, NetInv, PhaseInv, WorksOn;
    var s' := DoFatal(s, t, j, s.pool.jobs[j]);
    var job, pc', job' := s.pool.jobs[j], s'.threads[t], s'.pool.jobs[j];
    FatalWorks(s, t, j);
    WorkPhase(s, s', j);
    DutyUnparks(s.http, s.pool.jobs, s.threads, t, pc', job.httpAio.value, j, job');
    HolderMoves(s.pool, s.threads, t, pc', j, job');
    MsgStays(s.msgs, s.pool.jobs, s.net, j, job', s'.net);
    CtxStays(s.net, s.pool.jobs, j, job');
  }

  lemma FatalFinishWorks(s: State, t: ThreadId, j: JobId, a: AioId, r: bool)
    requires AboutTo(s, t, j, FatalFinish(a, j, r))
    ensures WorksOn(s, DoFatalFinish(s, t, a, j, r, true), j)
  {
  }

  lemma FatalFinishInv(s: State, t: ThreadId, j: JobId, a: AioId, r: bool)
    requires Inv(s) && AboutTo(s, t, j, FatalFinish(a, j, r))
    requires a in s.http.duty && s.http.duty[a] == Local(t)
    ensures Inv(DoFatalFinish(s, t, a, j, r, true))
  {
    hide HolderInv, DutyInv, MsgInv, CtxInv, NetInv, PhaseInv, WorksOn;
    var s' := DoFatalFinish(s, t, a, j, r, true);
    FatalFinishWorks(s, t, j, a, r);
    WorkPhase(s, s', j);
    HolderRuns(s.pool, s.threads, t, s'.threads[t]);
    DutyDoneLocally(s.http, s.pool.jobs, s.threads, t, s'.threads[t], a, ServerError);
  }

  lemma DropsNoOther(ms: Msgs, n: Net, job: Job, j: JobId)
    ensures var ms' := DropCtx(DropMsg(ms, job.msg, JobMsg(j)), n, job.ctx);
            && ms'.failed == ms.failed
            && forall m :: m in ms.heap && OfOtherJob(ms.heap[m].owner, {j}) ==>
                             m in ms'.heap && ms'.heap[m] == ms.heap[m]
  {
  }

  lemma ClosesNoOther(n: Net, c: Option<CtxId>)
    ensures CloseCtx(n, c).asked == n.asked
    ensures forall k :: c != Some(k) && Pending(n, k) ==> Pending(CloseCtx(n, c), k)
  {
  }

  lemma ClearWorks(s: State, t: ThreadId, j: JobId, r: Option<AioId>)
    requires AboutTo(s, t, j, Clear(j, r)) && OwnsCtx(s.net, j, s.pool.jobs[j].ctx)
    ensures WorksOn(s, DoClear(s, t, j, s.pool.jobs[j], r, true), j)
  {
    DropsNoOther(s.msgs, s.net, s.pool.jobs[j], j);
    ClosesNoOther(s.net, s.pool.jobs[j].ctx);
  }

  lemma NetClears(ms: Msgs, jobs: Jobs, n: Net, j: JobId)
    requires MsgInv(ms, jobs, n) && NetInv(n, ms) && j in jobs
    ensures NetInv(CloseCtx(n, jobs[j].ctx), DropCtx(DropMsg(ms, jobs[j].msg, JobMsg(j)), n, jobs[j].ctx))
  {
    hide MsgInv, NetInv;
    var job' := jobs[j].(msg := None);
    NetDrops(ms, jobs, n, j, jobs[j].msg);
    MsgDropped(ms, jobs, n, j, job');
    NetCloses(DropMsg(ms, jobs[j].msg, JobMsg(j)), jobs[j := job'], n, jobs[j].ctx);
  }

  lemma ClearInv(s: State, t: ThreadId, j: JobId, r: Option<AioId>)
    requires Inv(s) && AboutTo(s, t, j, Clear(j, r)) && OwnsCtx(s.net, j, s.pool.jobs[j].ctx)
    ensures Inv(DoClear(s, t, j, s.pool.jobs[j], r, true))
  {
    hide HolderInv, DutyInv, MsgInv, CtxInv, NetInv, PhaseInv, WorksOn;
    var s' := DoClear(s, t, j, s.pool.jobs[j], r, true);
    var job, pc', job' := s.pool.jobs[j], s'.threads[t], s'.pool.jobs[j];
    ClearWorks(s, t, j, r);
    WorkPhase(s, s', j);
    HolderMoves(s.pool, s.threads, t, pc', j, job');
    DutyStays(s.http, s.pool.jobs, s.threads, t, pc', j, job');
    MsgCleared(s.msgs, s.pool.jobs, s.net, j, job');
    CtxCloses(s.net, s.pool.jobs, j, job');
    NetClears(s.msgs, s.pool.jobs, s.net, j);
  }

  lemma PushWorks(s: State, t: ThreadId, j: JobId, r: Option<AioId>)
    requires AboutTo(s, t, j, Push(j, r))
    ensures WorksOn(s, DoPush(s, t, j, r), j)
  {
  }

  lemma PushInv(s: State, t: ThreadId, j: JobId, r: Option<AioId>)
    requires Inv(s) && AboutTo(s, t, j, Push(j, r))
    ensures Inv(DoPush(s, t, j, r))
  {
    hide HolderInv, DutyInv, MsgInv, CtxInv, NetInv, PhaseInv, WorksOn;
    var s' := DoPush(s, t, j, r);
    PushWorks(s, t, j, r);
    WorkPhase(s, s', j);
    if r == None {
      HolderPushes(s.pool, s.threads, t, Releasing, j);
      DutyLeaves(s.http, s.pool.jobs, s.threads, t);
    } else {
      HolderPushes(s.pool, s.threads, t, Refuse(r.value), j);
      DutyRuns(s.http, s.pool.jobs, s.threads, t, Refuse(r.value));
    }
  }

  // ---- What the invariant says of the job and the aio a thread holds ----

  lemma HeldMsg(s: State, j: JobId)
    requires MsgInv(s.msgs, s.pool.jobs, s.net) && j in s.pool.jobs
    ensures s.pool.jobs[j].msg.Some? ==>
              Owned(s.msgs, s.pool.jobs[j].msg.value, JobMsg(j)) && s.pool.jobs[j].msg.value !in s.msgs.failed
    ensures s.pool.jobs[j].slot.Holds? ==> Owned(s.msgs, s.pool.jobs[j].slot.m, JobSlot(j))
    ensures forall m :: m in s.msgs.failed ==> m in s.msgs.heap
  {
  }

  lemma HeldAio(s: State, t: ThreadId, j: JobId)
    requires DutyInv(s.http, s.pool.jobs, s.threads) && t in s.threads && j in s.pool.jobs
    ensures AioOf(s.threads[t]).Some? ==>
              var a := AioOf(s.threads[t]).value; a in s.http.accepted && a in s.http.duty && s.http.duty[a] == Local(t)
    ensures s.pool.jobs[j].httpAio.Some? ==>
              var a := s.pool.jobs[j].httpAio.value; a in s.http.duty && s.http.duty[a] == Parked(j)
  {
    if AioOf(s.threads[t]).Some? {
      var a: AioId := AioOf(s.threads[t]).value;
      assert a in s.http.duty;
    }
  }

  lemma HeldCtx(s: State, j: JobId)
    requires CtxInv(s.net, s.pool.jobs) && j in s.pool.jobs
    ensures OwnsCtx(s.net, j, s.pool.jobs[j].ctx)
  {
  }

  lemma HeldNotStarted(s: State, t: ThreadId, j: JobId)
    requires HolderInv(s.pool, s.threads) && Holding(s, t, j)
    ensures j !in s.pool.ops
  {
  }

  lemma DispatchInv(s: State, t: ThreadId, j: JobId)
    requires Inv(s) && AboutTo(s, t, j, Dispatch(j))
    ensures Inv(DoDispatch(s, t, j, s.pool.jobs[j]))
  {
    hide HolderInv, DutyInv, MsgInv, CtxInv, NetInv, PhaseInv;
    var job := s.pool.jobs[j];
    HeldMsg(s, j);
    if !job.succeeded {
      GiveUpInv(s, t, j, Fatal(j));
    } else if job.state == SendReq {
      TurnInv(s, t, j);
    } else {
      ReceivedInv(s, t, j, job.slot.m);
    }
  }

  lemma SetUpSectionInv(s: State, s': State, t: ThreadId, j: JobId, ok: bool, id: int)
    requires Inv(s) && Runs(s, s', t, j, ok, id) && AboutTo(s, t, j, s.threads[t])
    requires s.threads[t].MakeRes? || s.threads[t].OpenCtx? || s.threads[t].Attach?
    ensures Inv(s')
  {
    hide HolderInv, DutyInv, MsgInv, CtxInv, NetInv, PhaseInv;
    HeldAio(s, t, j);
    match s.threads[t]
    case MakeRes(a, _) => if ok { MakeResInv(s, t, j, a); } else { GiveUpInv(s, t, j, Clear(j, Some(a))); }
    case OpenCtx(a, _) => if ok { OpenCtxInv(s, t, j, a, id); } else { GiveUpInv(s, t, j, Clear(j, Some(a))); }
    case Attach(a, _) => AttachInv(s, t, j, a);
  }

  lemma FillSectionInv(s: State, s': State, t: ThreadId, j: JobId, ok: bool, id: int)
    requires Inv(s) && Runs(s, s', t, j, ok, id) && AboutTo(s, t, j, s.threads[t])
    requires s.threads[t].NewMsg? || s.threads[t].Load? || s.threads[t].Reply?
    ensures Inv(s')
  {
    hide HolderInv, DutyInv, MsgInv, CtxInv, NetInv, PhaseInv;
    HeldMsg(s, j);
    match s.threads[t]
    case NewMsg(_, data) => if ok { NewMsgInv(s, t, j, data, id); } else { GiveUpInv(s, t, j, Fatal(j)); }
    case Load(_, data) => LoadInv(s, t, j, data, s.pool.jobs[j].msg.value);
    case Reply(_) => if ok { ReplyInv(s, t, j); } else { GiveUpInv(s, t, j, Fatal(j)); }
  }

  lemma AnswerSectionInv(s: State, s': State, t: ThreadId, j: JobId, ok: bool, id: int)
    requires Inv(s) && Runs(s, s', t, j, ok, id) && AboutTo(s, t, j, s.threads[t]) && !s'.exited
    requires s.threads[t].Respond? || s.threads[t].Fatal? || s.threads[t].FatalFinish?
    ensures Inv(s')
  {
    hide HolderInv, DutyInv, MsgInv, CtxInv, NetInv, PhaseInv;
    HeldAio(s, t, j);
    match s.threads[t]
    case Respond(_) => RespondInv(s, t, j);
    case Fatal(_) => FatalInv(s, t, j);
    case FatalFinish(a, _, r) => FatalFinishInv(s, t, j, a, r);
  }

  lemma RecycleSectionInv(s: State, s': State, t: ThreadId, j: JobId, ok: bool, id: int)
    requires Inv(s) && Runs(s, s', t, j, ok, id) && AboutTo(s, t, j, s.threads[t]) && !s'.exited
    requires s.threads[t].Clear? || s.threads[t].Push?
    ensures Inv(s')
  {
    hide HolderInv, DutyInv, MsgInv, CtxInv, NetInv, PhaseInv;
    HeldCtx(s, j);
    match s.threads[t]
    case Clear(_, r) => ClearInv(s, t, j, r);
    case Push(_, r) => PushInv(s, t, j, r);
  }

  lemma HeldSectionInv(s: State, s': State, t: ThreadId, j: JobId, ok: bool, id: int)
    requires Inv(s) && Runs(s, s', t, j, ok, id) && !s'.exited
    ensures Inv(s')
  {
    hide HolderInv, DutyInv, MsgInv, CtxInv, NetInv, PhaseInv, JobReady;
    HeldReady(s, t, j);
    HeldNotStarted(s, t, j);
    match s.threads[t]
    case StartSend(_) => StartSendInv(s, t, j);
    case StartRecv(_) => StartRecvInv(s, t, j);
    case Dispatch(_) => DispatchInv(s, t, j);
    case MakeRes(_, _) => SetUpSectionInv(s, s', t, j, ok, id);
    case OpenCtx(_, _) => SetUpSectionInv(s, s', t, j, ok, id);
    case Attach(_, _) => SetUpSectionInv(s, s', t, j, ok, id);
    case NewMsg(_, _) => FillSectionInv(s, s', t, j, ok, id);
    case Load(_, _) => FillSectionInv(s, s', t, j, ok, id);
    case Reply(_) => FillSectionInv(s, s', t, j, ok, id);
    case Clear(_, _) => RecycleSectionInv(s, s', t, j, ok, id);
    case Push(_, _) => RecycleSectionInv(s, s', t, j, ok, id);
    case _ => AnswerSectionInv(s, s', t, j, ok, id);
  }

  // ---- Sections of a thread that holds no job ----

  /** Calling `exit(1)` changes nothing else. */
  lemma ExitInv(s: State)
    requires Inv(s)
    ensures Inv(Exit(s))
  {
    PhaseStep(s, Exit(s), {});
  }

  lemma ExitChangesNothing(s: State, s': State, t: ThreadId, j: JobId, ok: bool, id: int)
    requires Runs(s, s', t, j, ok, id) && s'.exited
    ensures s' == Exit(s)
  {
  }

  lemma GetNothingInv(s: State, t: ThreadId, a: AioId)
    requires Inv(s) && t in s.threads && s.threads[t] == Get(a) && s.pool.free == []
    ensures Inv(DoGet(s, t, a))
  {
    hide HolderInv, DutyInv, MsgInv, CtxInv, NetInv, PhaseInv, LocalStep;
    HolderIdle(s.pool, s.threads, t, Alloc(a));
    DutyRuns(s.http, s.pool.jobs, s.threads, t, Alloc(a));
    IdleLocal(s, Go(s, t, Alloc(a)), t);
    PhaseStep(s, DoGet(s, t, a), {});
  }

  /** A step of a thread that holds no job and changes no job. */
  lemma IdleLocal(s: State, s': State, t: ThreadId)
    requires t in s.threads && JobOf(s.threads[t]) == None
    requires forall u :: u in s.threads && u != t ==> u in s'.threads && s'.threads[u] == s.threads[u]
    requires s'.pool == s.pool && s'.msgs == s.msgs && s'.net == s.net && s'.http.accepted == s.http.accepted
    ensures LocalStep(s, s', {})
  {
  }

  lemma FreeReady(s: State, j: JobId)
    requires PhaseInv(s) && HolderInv(s.pool, s.threads) && j in s.pool.free
    ensures j in s.pool.jobs && Clean(s.msgs, s.pool.jobs[j])
  {
    assert j in s.pool.holder && s.pool.holder[j] == OnFreelist;
    assert Ready(s, j, OnFreelist);
  }

  lemma GetWorks(s: State, t: ThreadId, a: AioId, j: JobId)
    requires t in s.threads && s.threads[t] == Get(a) && s.pool.free != [] && j == s.pool.free[0]
    requires j in s.pool.jobs && Clean(s.msgs, s.pool.jobs[j])
    ensures WorksOn(s, DoGet(s, t, a), j)
  {
  }

  lemma GetJobInv(s: State, t: ThreadId, a: AioId, j: JobId)
    requires Inv(s) && t in s.threads && s.threads[t] == Get(a) && s.pool.free != [] && j == s.pool.free[0]
    ensures Inv(DoGet(s, t, a))
  {
    hide HolderInv, DutyInv, MsgInv, CtxInv, NetInv, PhaseInv, WorksOn;
    FreeReady(s, j);
    GetWorks(s, t, a, j);
    WorkPhase(s, DoGet(s, t, a), j);
    HolderTakes(s.pool, s.threads, t, MakeRes(a, j));
    DutyRuns(s.http, s.pool.jobs, s.threads, t, MakeRes(a, j));
  }

  lemma AllocWorks(s: State, t: ThreadId, a: AioId, j: JobId)
    requires t in s.threads && s.threads[t] == Alloc(a) && j !in s.pool.jobs
    ensures WorksOn(s, DoAlloc(s, t, a, true, j), j)
  {
  }

  lemma AllocInv(s: State, t: ThreadId, a: AioId, j: JobId)
    requires Inv(s) && t in s.threads && s.threads[t] == Alloc(a) && j !in s.pool.jobs
    ensures Inv(DoAlloc(s, t, a, true, j))
  {
    hide HolderInv, DutyInv, MsgInv, CtxInv, NetInv, PhaseInv, WorksOn;
    HolderAllocates(s.pool, s.threads, t, MakeRes(a, j), j, NEW_JOB);
    DutyStays(s.http, s.pool.jobs, s.threads, t, MakeRes(a, j), j, NEW_JOB);
    MsgStays(s.msgs, s.pool.jobs, s.net, j, NEW_JOB, s.net);
    CtxStays(s.net, s.pool.jobs, j, NEW_JOB);
    AllocWorks(s, t, a, j);
    WorkPhase(s, DoAlloc(s, t, a, true, j), j);
  }

  lemma RefuseInv(s: State, t: ThreadId, a: AioId)
    requires Inv(s) && t in s.threads && s.threads[t] == Refuse(a) && a in s.http.duty && s.http.duty[a] == Local(t)
    ensures Inv(DoRefuse(s, t, a))
  {
    hide HolderInv, DutyInv, MsgInv, CtxInv, NetInv, PhaseInv, LocalStep;
    HolderIdle(s.pool, s.threads, t, Releasing);
    DutyDoneLocally(s.http, s.pool.jobs, s.threads, t, Releasing, a, Refused);
    IdleLocal(s, DoRefuse(s, t, a), t);
    PhaseStep(s, DoRefuse(s, t, a), {});
  }

  lemma ReleaseInv(s: State, t: ThreadId)
    requires Inv(s) && t in s.threads && s.threads[t].Releasing?
    ensures Inv(s.(threads := s.threads - {t}))
  {
    hide HolderInv, DutyInv, MsgInv, CtxInv, NetInv, PhaseInv, LocalStep;
    HolderIdle(s.pool, s.threads, t, Releasing);
    DutyLeaves(s.http, s.pool.jobs, s.threads, t);
    IdleLocal(s, s.(threads := s.threads - {t}), t);
    PhaseStep(s, s.(threads := s.threads - {t}), {});
  }

  lemma ThreadAio(s: State, t: ThreadId, a: AioId)
    requires DutyInv(s.http, s.pool.jobs, s.threads) && t in s.threads && AioOf(s.threads[t]) == Some(a)
    ensures a in s.http.duty && s.http.duty[a] == Local(t) && a in s.http.accepted
  {
  }

  lemma IdleSectionInv(s: State, t: ThreadId, ok: bool, id: int)
    requires Inv(s) && Enabled(s, Run(t, ok, id)) && JobOf(s.threads[t]) == None
    ensures Inv(Section(s, t, ok, id))
  {
    hide HolderInv, DutyInv, MsgInv, CtxInv, NetInv, PhaseInv;
    match s.threads[t]
    case Get(a) => if s.pool.free == [] { GetNothingInv(s, t, a); } else { GetJobInv(s, t, a, s.pool.free[0]); }
    case Alloc(a) => if ok { AllocInv(s, t, a, id); } else { ExitInv(s); }
    case Refuse(a) =>
      ThreadAio(s, t, a);
      RefuseInv(s, t, a);
    case Releasing => ReleaseInv(s, t);
  }

  lemma HeldInv(s: State, t: ThreadId, j: JobId, ok: bool, id: int)
    requires Inv(s) && Enabled(s, Run(t, ok, id)) && JobOf(s.threads[t]) == Some(j)
    ensures Inv(Section(s, t, ok, id))
  {
    hide DutyInv, MsgInv, CtxInv, NetInv, PhaseInv, JobSection;
    var s' := JobSection(s, t, j, ok, id);
    if s'.exited {
      ExitChangesNothing(s, s', t, j, ok, id);
      ExitInv(s);
    } else {
      HeldSectionInv(s, s', t, j, ok, id);
    }
  }

  lemma SectionInv(s: State, t: ThreadId, ok: bool, id: int)
    requires Inv(s) && Enabled(s, Run(t, ok, id))
    ensures Inv(Section(s, t, ok, id))
  {
    hide Inv;
    if JobOf(s.threads[t]) == None {
      IdleSectionInv(s, t, ok, id);
    } else {
      HeldInv(s, t, JobOf(s.threads[t]).value, ok, id);
    }
  }

  // ---- The environment ----

  lemma AcceptLocal(s: State, t: ThreadId, a: AioId, body: Bytes)
    requires Enabled(s, Accept(t, a, body))
    ensures LocalStep(s, DoAccept(s, t, a, body), {})
  {
  }

  lemma AcceptInv(s: State, t: ThreadId, a: AioId, body: Bytes)
    requires Inv(s) && Enabled(s, Accept(t, a, body))
    ensures Inv(DoAccept(s, t, a, body))
  {
    hide HolderInv, DutyInv, MsgInv, CtxInv, NetInv, PhaseInv, LocalStep;
    HolderIdle(s.pool, s.threads, t, Get(a));
    DutyAccepts(s.http, s.pool.jobs, s.threads, t, a, body);
    AcceptLocal(s, t, a, body);
    PhaseStep(s, DoAccept(s, t, a, body), {});
  }

  /** What is known of a job whose operation is in progress or has completed. */
  lemma OpIsReady(s: State, j: JobId)
    requires PhaseInv(s) && HolderInv(s.pool, s.threads) && j in s.pool.ops
    ensures j in s.pool.holder && s.pool.holder[j] == InFlight
    ensures j in s.pool.jobs && OpReady(s, s.pool.ops[j], s.pool.jobs[j])
  {
    assert j in s.pool.holder && s.pool.holder[j] == InFlight;
    assert Ready(s, j, InFlight);
  }

  lemma CallbackWorks(s: State, t: ThreadId, j: JobId)
    requires t !in s.threads && j in s.pool.jobs && j in s.pool.ops && s.pool.ops[j].completed
    requires OpReady(s, s.pool.ops[j], s.pool.jobs[j])
    ensures WorksOn(s, DoCallback(s, t, j), j)
  {
  }

  lemma CallbackInv(s: State, t: ThreadId, j: JobId)
    requires Inv(s) && Enabled(s, Callback(t, j))
    ensures Inv(DoCallback(s, t, j))
  {
    hide HolderInv, DutyInv, MsgInv, CtxInv, NetInv, PhaseInv, WorksOn, OpReady;
    OpIsReady(s, j);
    CallbackWorks(s, t, j);
    WorkPhase(s, DoCallback(s, t, j), j);
    HolderCallsBack(s.pool, s.threads, t, Dispatch(j), j);
    DutyRuns(s.http, s.pool.jobs, s.threads, t, Dispatch(j));
  }

  /** An operation of job `j` is in progress, and what is known of the job meanwhile. */
  predicate Underway(s: State, j: JobId, kind: JobState) {
    && InProgress(s.pool, j, kind) && j in s.pool.holder && s.pool.holder[j] == InFlight
    && OpReady(s, Op(kind, false), s.pool.jobs[j])
  }

  lemma SendFailedWorks(s: State, j: JobId)
    requires Underway(s, j, SendReq) && Owned(s.msgs, s.pool.jobs[j].slot.m, JobSlot(j))
    ensures WorksOn(s, DoSendDone(s, j, s.pool.jobs[j], false), j)
  {
  }

  lemma SendDoneLocal(s: State, j: JobId)
    requires Underway(s, j, SendReq) && Owned(s.msgs, s.pool.jobs[j].slot.m, JobSlot(j))
    requires OwnsCtx(s.net, j, s.pool.jobs[j].ctx)
    ensures LocalStep(s, DoSendDone(s, j, s.pool.jobs[j], true), {j})
  {
  }

  lemma SendDoneWorks(s: State, j: JobId)
    requires Underway(s, j, SendReq) && Owned(s.msgs, s.pool.jobs[j].slot.m, JobSlot(j))
    requires OwnsCtx(s.net, j, s.pool.jobs[j].ctx)
    ensures WorksOn(s, DoSendDone(s, j, s.pool.jobs[j], true), j)
  {
    hide LocalStep;
    SendDoneLocal(s, j);
  }

  lemma SendFailedInv(s: State, j: JobId)
    requires Inv(s) && Underway(s, j, SendReq)
    ensures Inv(DoSendDone(s, j, s.pool.jobs[j], false))
  {
    hide HolderInv, DutyInv, MsgInv, CtxInv, NetInv, PhaseInv, WorksOn;
    var s' := DoSendDone(s, j, s.pool.jobs[j], false);
    HeldMsg(s, j);
    SendFailedWorks(s, j);
    WorkPhase(s, s', j);
    var job' := s'.pool.jobs[j];
    HolderCompletes(s.pool, s.threads, j, SendReq, job');
    DutyStaysPut(s.http, s.pool.jobs, s.threads, j, job');
    MsgSendFailed(s.msgs, s.pool.jobs, s.net, j, s.pool.jobs[j].slot.m);
    MsgStays(s'.msgs, s.pool.jobs, s.net, j, job', s.net);
    CtxStays(s.net, s.pool.jobs, j, job');
    NetSame(s.net, s.msgs, s'.net, s'.msgs);
  }

  lemma Unasking(s: State, j: JobId)
    requires CtxInv(s.net, s.pool.jobs) && j in s.pool.jobs && Unasked(s.net, s.pool.jobs[j])
    ensures s.pool.jobs[j].ctx.value !in s.net.wire
  {
    var c: CtxId := s.pool.jobs[j].ctx.value;
    assert c in s.net.wire ==> c in s.net.asked;
  }

  lemma ShortBody(h: Http, a: AioId)
    requires PagesRight(h) && a in h.accepted
    ensures |h.accepted[a]| <= MAX_BODY
  {
  }

  lemma SendDoneInv(s: State, j: JobId)
    requires Inv(s) && Underway(s, j, SendReq)
    ensures Inv(DoSendDone(s, j, s.pool.jobs[j], true))
  {
    hide HolderInv, DutyInv, MsgInv, CtxInv, NetInv, PhaseInv, WorksOn, PagesRight;
    var s' := DoSendDone(s, j, s.pool.jobs[j], true);
    HeldMsg(s, j);
    HeldCtx(s, j);
    Unasking(s, j);
    SendDoneWorks(s, j);
    WorkPhase(s, s', j);
    var job, job' := s.pool.jobs[j], s'.pool.jobs[j];
    HolderCompletes(s.pool, s.threads, j, SendReq, job');
    DutyStaysPut(s.http, s.pool.jobs, s.threads, j, job');
    MsgSent(s.msgs, s.pool.jobs, s.net, j, job', job.slot.m, job.ctx.value, s'.net);
    CtxAsks(s.net, s.pool.jobs, j, job', s'.net, job.ctx.value);
    ShortBody(s.http, job.httpAio.value);
    NetAsks(s.net, s.msgs, job.slot.m, job.ctx.value, s'.net, s'.msgs);
  }

  lemma RecvFailedWorks(s: State, j: JobId)
    requires Underway(s, j, RecvRep) && OwnsCtx(s.net, j, s.pool.jobs[j].ctx)
    ensures WorksOn(s, DoRecvDone(s, j, s.pool.jobs[j], false), j)
  {
  }

  /** Context `c` of the job keeps the reply `m`. */
  predicate HasReply(s: State, j: JobId, c: CtxId, m: MsgId) {
    && j in s.pool.jobs && s.pool.jobs[j].ctx == Some(c)
    && c in s.net.wire && s.net.wire[c] == Answer(m) && Owned(s.msgs, m, Socket(c)) && m !in s.msgs.failed
    && c in s.net.asked && BodyIs(s.msgs, m, Rot13.Rot13(s.net.asked[c]))
  }

  lemma RecvDoneLocal(s: State, j: JobId, c: CtxId, m: MsgId)
    requires Underway(s, j, RecvRep) && OwnsCtx(s.net, j, Some(c)) && HasReply(s, j, c, m)
    ensures LocalStep(s, DoRecvDone(s, j, s.pool.jobs[j], true), {j})
  {
  }

  lemma RecvDoneWorks(s: State, j: JobId, c: CtxId, m: MsgId)
    requires Underway(s, j, RecvRep) && OwnsCtx(s.net, j, Some(c)) && HasReply(s, j, c, m)
    ensures WorksOn(s, DoRecvDone(s, j, s.pool.jobs[j], true), j)
  {
    hide LocalStep;
    RecvDoneLocal(s, j, c, m);
  }

  lemma RecvFailedInv(s: State, j: JobId)
    requires Inv(s) && Underway(s, j, RecvRep)
    ensures Inv(DoRecvDone(s, j, s.pool.jobs[j], false))
  {
    hide HolderInv, DutyInv, MsgInv, CtxInv, NetInv, PhaseInv, WorksOn;
    var s' := DoRecvDone(s, j, s.pool.jobs[j], false);
    HeldCtx(s, j);
    RecvFailedWorks(s, j);
    WorkPhase(s, s', j);
    var job' := s'.pool.jobs[j];
    HolderCompletes(s.pool, s.threads, j, RecvRep, job');
    DutyStaysPut(s.http, s.pool.jobs, s.threads, j, job');
    MsgStays(s.msgs, s.pool.jobs, s.net, j, job', s.net);
    CtxStays(s.net, s.pool.jobs, j, job');
  }

  lemma KeptReply(s: State, c: CtxId)
    requires MsgInv(s.msgs, s.pool.jobs, s.net) && NetInv(s.net, s.msgs)
    requires c in s.net.wire && c in s.net.asked && s.net.wire[c].Answer?
    ensures Owned(s.msgs, s.net.wire[c].m, Socket(c)) && s.net.wire[c].m !in s.msgs.failed
    ensures BodyIs(s.msgs, s.net.wire[c].m, Rot13.Rot13(s.net.asked[c]))
  {
  }

  lemma RecvDoneInv(s: State, j: JobId)
    requires Inv(s) && Underway(s, j, RecvRep) && Answered(s.net, s.pool.jobs[j].ctx)
    ensures Inv(DoRecvDone(s, j, s.pool.jobs[j], true))
  {
    hide HolderInv, DutyInv, MsgInv, CtxInv, NetInv, PhaseInv, WorksOn;
    var s' := DoRecvDone(s, j, s.pool.jobs[j], true);
    var job, job' := s.pool.jobs[j], s'.pool.jobs[j];
    HeldCtx(s, j);
    KeptReply(s, job.ctx.value);
    RecvDoneWorks(s, j, job.ctx.value, s.net.wire[job.ctx.value].m);
    WorkPhase(s, s', j);
    HolderCompletes(s.pool, s.threads, j, RecvRep, job');
    DutyStaysPut(s.http, s.pool.jobs, s.threads, j, job');
    MsgReceived(s.msgs, s.pool.jobs, s.net, j, job', job.ctx.value, s'.net);
    CtxForgets(s.net, s.pool.jobs, j, job', s'.net);
    NetDelivers(s.msgs, s.net, job.ctx.value, j);
  }

  /** The server and the sockets move messages without touching any job. */
  lemma ServerLocal(s: State, s': State)
    requires s'.threads == s.threads && s'.pool == s.pool && s'.http == s.http
    requires s'.msgs.failed == s.msgs.failed && s'.net.asked == s.net.asked
    requires forall m :: m in s.msgs.heap && OfOtherJob(s.msgs.heap[m].owner, {}) ==>
                           m in s'.msgs.heap && s'.msgs.heap[m] == s.msgs.heap[m]
    requires forall c :: c in s.net.open && Pending(s.net, c) ==> Pending(s'.net, c)
    ensures LocalStep(s, s', {})
  {
  }

  lemma ServerRecvInv(s: State, c: CtxId)
    requires Inv(s) && Enabled(s, ServerRecv(c, true)) && c in s.net.asked
    ensures Inv(DoServerRecv(s, c))
  {
    hide HolderInv, DutyInv, MsgInv, CtxInv, NetInv, PhaseInv, LocalStep;
    var s' := DoServerRecv(s, c);
    MsgServed(s.msgs, s.pool.jobs, s.net, c, s'.net);
    NetServes(s.msgs, s.net, c, s'.net);
    CtxServes(s.net, s.pool.jobs, s'.net);
    ServerLocal(s, s');
    PhaseStep(s, s', {});
  }

  lemma ServerTurnInv(s: State)
    requires Inv(s) && Enabled(s, ServerTurn) && Owned(s.msgs, s.net.server.m, AtServer)
    ensures Inv(DoServerTurn(s, s.net.server.c, s.net.server.m))
  {
    hide HolderInv, DutyInv, MsgInv, CtxInv, NetInv, PhaseInv, LocalStep;
    var s' := DoServerTurn(s, s.net.server.c, s.net.server.m);
    MsgTurned(s.msgs, s.pool.jobs, s.net, Rot13.Loop(s.msgs.heap[s.net.server.m].body), s'.net);
    NetTurns(s.msgs, s.pool.jobs, s.net, s'.net);
    CtxServes(s.net, s.pool.jobs, s'.net);
    ServerLocal(s, s');
    PhaseStep(s, s', {});
  }

  lemma ServerReturnInv(s: State, c: CtxId)
    requires Inv(s) && Enabled(s, ServerSend(true)) && c == s.net.server.c && c in s.net.open
    requires c in s.net.asked && c !in s.net.wire
    ensures Inv(DoServerSend(s, c, s.net.server.m))
  {
    hide HolderInv, DutyInv, MsgInv, CtxInv, NetInv, PhaseInv, LocalStep;
    var s' := DoServerSend(s, c, s.net.server.m);
    MsgReturned(s.msgs, s.pool.jobs, s.net, c, s'.net);
    NetReturns(s.msgs, s.net, s'.net);
    CtxServes(s.net, s.pool.jobs, s'.net);
    ServerLocal(s, s');
    PhaseStep(s, s', {});
  }

  lemma ServerDiscardInv(s: State, c: CtxId)
    requires Inv(s) && Enabled(s, ServerSend(true)) && c == s.net.server.c && c !in s.net.open
    ensures Inv(DoServerSend(s, c, s.net.server.m))
  {
    hide HolderInv, DutyInv, MsgInv, CtxInv, NetInv, PhaseInv, LocalStep;
    var s' := DoServerSend(s, c, s.net.server.m);
    MsgOrphaned(s.msgs, s.pool.jobs, s.net, s'.net);
    NetOrphans(s.msgs, s.pool.jobs, s.net);
    CtxServes(s.net, s.pool.jobs, s'.net);
    ServerLocal(s, s');
    PhaseStep(s, s', {});
  }

  lemma LapseInv(s: State, c: CtxId)
    requires Inv(s) && Enabled(s, Lapse(c))
    ensures Inv(DoLapse(s, c))
  {
    hide HolderInv, DutyInv, MsgInv, CtxInv, NetInv, PhaseInv, LocalStep;
    var s' := DoLapse(s, c);
    MsgLapses(s.msgs, s.pool.jobs, s.net, c, s'.net);
    NetLapses(s.msgs, s.pool.jobs, s.net, c);
    CtxServes(s.net, s.pool.jobs, s'.net);
    ServerLocal(s, s');
    PhaseStep(s, s', {});
  }

  /** What is known of the message the server holds and of the context it came from. */
  lemma ServerFacts(s: State)
    requires MsgInv(s.msgs, s.pool.jobs, s.net) && NetInv(s.net, s.msgs) && CtxInv(s.net, s.pool.jobs)
    ensures !s.net.server.Idle? ==>
              Owned(s.msgs, s.net.server.m, AtServer) && s.net.server.c in s.net.asked && s.net.server.c !in s.net.wire
    ensures forall c :: c in s.net.wire ==> c in s.net.asked
  {
  }

  // ---- Every step, every run ----

  lemma ServerInv(s: State, e: Event)
    requires Inv(s) && Enabled(s, e) && (e.ServerRecv? || e.ServerTurn? || e.ServerSend? || e.Lapse?)
    ensures Inv(Do(s, e))
  {
    hide HolderInv, DutyInv, MsgInv, CtxInv, NetInv, PhaseInv;
    ServerFacts(s);
    match e
    case ServerRecv(c, ok) => if ok { ServerRecvInv(s, c); } else { ExitInv(s); }
    case ServerTurn => ServerTurnInv(s);
    case ServerSend(ok) =>
      var c := s.net.server.c;
      if !ok { ExitInv(s); } else if c in s.net.open { ServerReturnInv(s, c); } else { ServerDiscardInv(s, c); }
    case Lapse(c) => LapseInv(s, c);
  }

  lemma CompletionInv(s: State, e: Event)
    requires Inv(s) && Enabled(s, e) && (e.SendDone? || e.RecvDone?)
    ensures Inv(Do(s, e))
  {
    hide HolderInv, DutyInv, MsgInv, CtxInv, NetInv, PhaseInv;
    OpIsReady(s, e.j);
    match e
    case SendDone(j, ok) => if ok { SendDoneInv(s, j); } else { SendFailedInv(s, j); }
    case RecvDone(j, ok) => if ok { RecvDoneInv(s, j); } else { RecvFailedInv(s, j); }
  }

  lemma StepInv(s: State, e: Event)
    requires Inv(s)
    ensures Inv(Step(s, e))
  {
    hide Inv;
    if Enabled(s, e) {
      match e
      case Accept(t, a, body) => AcceptInv(s, t, a, body);
      case Run(t, ok, id) => SectionInv(s, t, ok, id);
      case SendDone(_, _) => CompletionInv(s, e);
      case RecvDone(_, _) => CompletionInv(s, e);
      case Callback(t, j) => CallbackInv(s, t, j);
      case _ => ServerInv(s, e);
    }
  }

  lemma {:induction false} RunInv(run: seq<Event>)
    ensures Inv(After(run))
  {
    if run == [] {
      InitInv();
    } else {
      RunInv(run[..|run| - 1]);
      StepInv(After(run[..|run| - 1]), run[|run| - 1]);
    }
  }
}
