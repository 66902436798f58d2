/** What the sections of a thread holding a job leave alone, whatever state they run in. */
module RestShapes {
  import opened Bytes
  import opened RestProxy

  predicate AtJob(s: State, t: ThreadId, j: JobId) {
    t in s.threads && JobOf(s.threads[t]) == Some(j) && j in s.pool.jobs
  }

  /** Only loading a job and taking the reply out of it change its aio slot. */
  predicate KeepsSlot(s: State, t: ThreadId, j: JobId) {
    AtJob(s, t, j) && !s.threads[t].Load? && !(s.threads[t].Dispatch? && s.pool.jobs[j].succeeded)
  }

  /** What a section of thread `t` working on `j` never does. */
  ghost predicate Shape(s: State, s': State, t: ThreadId, j: JobId) {
    && (forall k :: k in s'.pool.jobs <==> k in s.pool.jobs)
    && (forall k :: k in s.pool.jobs && k != j ==> s'.pool.jobs[k] == s.pool.jobs[k])
    && (KeepsSlot(s, t, j) ==> s'.pool.jobs[j].slot == s.pool.jobs[j].slot)
    && s'.msgs.failed == s.msgs.failed && s'.http.accepted == s.http.accepted
    && (forall u :: u in s'.threads ==> u in s.threads && (u == t || s'.threads[u] == s.threads[u]))
    && (forall u :: u in s.threads && u != t ==> u in s'.threads)
    && (t in s'.threads ==> !s'.threads[t].Alloc?)
    && (forall a :: a in s.http.finished && a !in s.http.duty ==>
                      a in s'.http.finished && s'.http.finished[a] == s.http.finished[a])
  }

  predicate TakesReply(job: Job) { job.succeeded && job.state == RecvRep && job.slot.Holds? }

  lemma DropKeepsFailed(ms: Msgs, m: Option<MsgId>, p: Place, n: Net, c: Option<CtxId>)
    ensures DropMsg(ms, m, p).failed == ms.failed && DropCtx(ms, n, c).failed == ms.failed
  {
  }

  lemma MakeResShape(s: State, t: ThreadId, j: JobId, a: AioId, ok: bool)
    requires AtJob(s, t, j) && s.threads[t].MakeRes?
    ensures Shape(s, DoMakeRes(s, t, a, j, s.pool.jobs[j], ok), t, j)
  {
  }

  lemma OpenCtxShape(s: State, t: ThreadId, j: JobId, a: AioId, ok: bool, c: CtxId)
    requires AtJob(s, t, j) && s.threads[t].OpenCtx?
    ensures Shape(s, DoOpenCtx(s, t, a, j, s.pool.jobs[j], ok, c), t, j)
  {
    DropKeepsFailed(s.msgs, None, AtServer, s.net, s.pool.jobs[j].ctx);
  }

  lemma AttachShape(s: State, t: ThreadId, j: JobId, a: AioId)
    requires AtJob(s, t, j) && s.threads[t].Attach?
    ensures Shape(s, DoAttach(s, t, a, j, s.pool.jobs[j]), t, j)
  {
  }

  lemma NewMsgShape(s: State, t: ThreadId, j: JobId, data: Bytes, ok: bool, m: MsgId)
    requires AtJob(s, t, j) && s.threads[t].NewMsg?
    ensures Shape(s, DoNewMsg(s, t, j, s.pool.jobs[j], data, ok, m), t, j)
  {
    DropKeepsFailed(s.msgs, s.pool.jobs[j].msg, JobMsg(j), s.net, None);
  }

  lemma LoadShape(s: State, t: ThreadId, j: JobId, data: Bytes)
    requires AtJob(s, t, j) && s.threads[t].Load?
    ensures Shape(s, DoLoad(s, t, j, s.pool.jobs[j], data), t, j)
  {
  }

  lemma StartShape(s: State, t: ThreadId, j: JobId, kind: JobState)
    requires AtJob(s, t, j) && (s.threads[t].StartSend? || s.threads[t].StartRecv?)
    ensures Shape(s, StartOp(s, t, j, s.pool.jobs[j], kind), t, j)
  {
  }

  lemma DispatchShape(s: State, t: ThreadId, j: JobId)
    requires AtJob(s, t, j) && s.threads[t].Dispatch? && !(s.pool.jobs[j].succeeded && s.pool.jobs[j].state == RecvRep)
    ensures Shape(s, DoDispatch(s, t, j, s.pool.jobs[j]), t, j)
  {
    DropKeepsFailed(s.msgs, s.pool.jobs[j].msg, JobMsg(j), s.net, None);
  }

  lemma NoReplyShape(s: State, t: ThreadId, j: JobId)
    requires AtJob(s, t, j) && s.threads[t].Dispatch? && s.pool.jobs[j].succeeded
    requires s.pool.jobs[j].state == RecvRep && !s.pool.jobs[j].slot.Holds?
    ensures Shape(s, DoDispatch(s, t, j, s.pool.jobs[j]), t, j)
  {
    DropKeepsFailed(s.msgs, s.pool.jobs[j].msg, JobMsg(j), s.net, None);
  }

  lemma ReceivedShape(s: State, t: ThreadId, j: JobId)
    requires AtJob(s, t, j) && s.threads[t].Dispatch? && TakesReply(s.pool.jobs[j])
    ensures Shape(s, DoDispatch(s, t, j, s.pool.jobs[j]), t, j)
  {
    DropKeepsFailed(s.msgs, s.pool.jobs[j].msg, JobMsg(j), s.net, None);
  }

  lemma ReplyShape(s: State, t: ThreadId, j: JobId, ok: bool)
    requires AtJob(s, t, j) && s.threads[t].Reply?
    ensures Shape(s, DoReply(s, t, j, s.pool.jobs[j], ok), t, j)
  {
  }

  lemma RespondShape(s: State, t: ThreadId, j: JobId, ok: bool)
    requires AtJob(s, t, j) && s.threads[t].Respond?
    ensures Shape(s, DoRespond(s, t, j, s.pool.jobs[j], ok), t, j)
  {
  }

  lemma FatalShape(s: State, t: ThreadId, j: JobId)
    requires AtJob(s, t, j) && s.threads[t].Fatal?
    ensures Shape(s, DoFatal(s, t, j, s.pool.jobs[j]), t, j)
  {
  }

  lemma FatalFinishShape(s: State, t: ThreadId, j: JobId, a: AioId, r: bool, ok: bool)
    requires AtJob(s, t, j) && s.threads[t].FatalFinish?
    ensures Shape(s, DoFatalFinish(s, t, a, j, r, ok), t, j)
  {
  }

  lemma ClearShape(s: State, t: ThreadId, j: JobId, r: Option<AioId>, ok: bool)
    requires AtJob(s, t, j) && s.threads[t].Clear?
    ensures Shape(s, DoClear(s, t, j, s.pool.jobs[j], r, ok), t, j)
  {
    var job := s.pool.jobs[j];
    DropKeepsFailed(s.msgs, job.msg, JobMsg(j), s.net, None);
    DropKeepsFailed(DropMsg(s.msgs, job.msg, JobMsg(j)), None, AtServer, s.net, job.ctx);
  }

  lemma PushShape(s: State, t: ThreadId, j: JobId, r: Option<AioId>)
    requires AtJob(s, t, j) && s.threads[t].Push?
    ensures Shape(s, DoPush(s, t, j, r), t, j)
  {
  }

  lemma JobSectionShape(s: State, t: ThreadId, j: JobId, ok: bool, id: int)
    requires AtJob(s, t, j)
    ensures Shape(s, JobSection(s, t, j, ok, id), t, j)
  {
    hide Shape;
    match s.threads[t]
    case MakeRes(a, _) => MakeResShape(s, t, j, a, ok);
    case OpenCtx(a, _) => OpenCtxShape(s, t, j, a, ok, id);
    case Attach(a, _) => AttachShape(s, t, j, a);
    case NewMsg(_, data) => NewMsgShape(s, t, j, data, ok, id);
    case Load(_, data) => LoadShape(s, t, j, data);
    case StartSend(_) => StartShape(s, t, j, SendReq);
    case Dispatch(_) =>
      if TakesReply(s.pool.jobs[j]) {
        ReceivedShape(s, t, j);
      } else if s.pool.jobs[j].succeeded && s.pool.jobs[j].state == RecvRep {
        NoReplyShape(s, t, j);
      } else {
        DispatchShape(s, t, j);
      }
    case StartRecv(_) => StartShape(s, t, j, RecvRep);
    case Reply(_) => ReplyShape(s, t, j, ok);
    case Respond(_) => RespondShape(s, t, j, ok);
    case Fatal(_) => FatalShape(s, t, j);
    case FatalFinish(a, _, r) => FatalFinishShape(s, t, j, a, r, ok);
    case Clear(_, r) => ClearShape(s, t, j, r, ok);
    case Push(_, r) => PushShape(s, t, j, r);
  }

  lemma FaultyShape(s: State, t: ThreadId, j: JobId)
    requires t in s.threads && !s.threads[t].Alloc?
    ensures Shape(s, Faulty(s), t, j)
  {
  }

  lemma SectionShape(s: State, t: ThreadId, j: JobId, ok: bool, id: int)
    requires t in s.threads && JobOf(s.threads[t]) == Some(j)
    ensures Shape(s, Section(s, t, ok, id), t, j)
  {
    hide Shape, JobSection;
    if AtJob(s, t, j) {
      JobSectionShape(s, t, j, ok, id);
    }
    FaultyShape(s, t, j);
  }
}
