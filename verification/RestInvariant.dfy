/** The inductive invariant of the proxy: what is known of every job, aio, message and context. */
module RestInvariant {
  import opened Bytes
  import opened RestProxy
  import Rot13

  /** The message a place points at, as an owning pointer. */
  function At(jobs: map<JobId, Job>, n: Net, p: Place): Option<MsgId> {
    match p
    case JobMsg(j) => if j in jobs then jobs[j].msg else None
    case JobSlot(j) => if j in jobs && jobs[j].slot.Holds? then Some(jobs[j].slot.m) else None
    case Socket(c) => if c in n.wire then Some(n.wire[c].m) else None
    case AtServer => if n.server.Idle? then None else Some(n.server.m)
  }

  ghost predicate Distinct(s: seq<JobId>) {
    forall i, k :: 0 <= i < k < |s| ==> s[i] != s[k]
  }

  ghost predicate HolderInv(p: Pool, threads: map<ThreadId, Thread>) {
    && p.holder.Keys == p.jobs.Keys
    && Distinct(p.free)
    && (forall j :: j in p.free ==> j in p.holder && p.holder[j] == OnFreelist)
    && (forall j :: j in p.ops ==> j in p.holder && p.holder[j] == InFlight)
    && (forall t :: t in threads && JobOf(threads[t]).Some? ==>
                      JobOf(threads[t]).value in p.holder && p.holder[JobOf(threads[t]).value] == ByThread(t))
    && (forall j :: j in p.holder ==> match p.holder[j]
                                      case OnFreelist => j in p.free
                                      case InFlight => j in p.ops
                                      case ByThread(t) => t in threads && JobOf(threads[t]) == Some(j))
  }

  ghost predicate DutyInv(h: Http, jobs: map<JobId, Job>, threads: map<ThreadId, Thread>) {
    && !h.misused
    && h.duty.Keys == h.accepted.Keys - h.finished.Keys
    && h.finished.Keys <= h.accepted.Keys
    && (forall t :: t in threads && AioOf(threads[t]).Some? ==>
                      AioOf(threads[t]).value in h.duty && h.duty[AioOf(threads[t]).value] == Local(t))
    && (forall j :: j in jobs && jobs[j].httpAio.Some? ==>
                      jobs[j].httpAio.value in h.duty && h.duty[jobs[j].httpAio.value] == Parked(j))
    && (forall a :: a in h.duty ==> match h.duty[a]
                                    case Local(t) => t in threads && AioOf(threads[t]) == Some(a)
                                    case Parked(j) => j in jobs && jobs[j].httpAio == Some(a))
  }

  predicate Owned(ms: Msgs, m: MsgId, p: Place) {
    m in ms.heap && ms.heap[m].owner == p
  }

  ghost predicate MsgInv(ms: Msgs, jobs: map<JobId, Job>, n: Net) {
    && !ms.misused
    && (forall j :: j in jobs && jobs[j].msg.Some? ==> Owned(ms, jobs[j].msg.value, JobMsg(j)))
    && (forall j :: j in jobs && jobs[j].slot.Holds? ==> Owned(ms, jobs[j].slot.m, JobSlot(j)))
    && (forall c :: c in n.wire ==> Owned(ms, n.wire[c].m, Socket(c)))
    && (!n.server.Idle? ==> Owned(ms, n.server.m, AtServer))
    && (forall m :: m in ms.heap && m !in ms.failed ==> At(jobs, n, ms.heap[m].owner) == Some(m))
    && (forall m :: m in ms.failed ==> m in ms.heap && ms.heap[m].owner.JobSlot?)
  }

  ghost predicate CtxInv(n: Net, jobs: map<JobId, Job>) {
    && n.open.Keys <= n.used
    && n.asked.Keys <= n.used
    && (forall c :: c in n.wire ==> c in n.asked && (n.wire[c].Answer? ==> c in n.open))
    && (forall c :: c in n.open ==> n.open[c] in jobs && jobs[n.open[c]].ctx == Some(c))
    && (forall j :: j in jobs && jobs[j].ctx.Some? ==>
                      jobs[j].ctx.value in n.open && n.open[jobs[j].ctx.value] == j)
  }

  predicate BodyIs(ms: Msgs, m: MsgId, body: Bytes) {
    m in ms.heap && ms.heap[m].body == body
  }

  ghost predicate NetInv(n: Net, ms: Msgs) {
    && (forall c :: c in n.asked ==> |n.asked[c]| <= MAX_BODY)
    && (forall c :: c in n.wire && c in n.asked ==>
                      BodyIs(ms, n.wire[c].m, if n.wire[c].Request? then n.asked[c] else Rot13.Rot13(n.asked[c])))
    && (!n.server.Idle? ==>
          && n.server.c in n.asked && n.server.c !in n.wire
          && BodyIs(ms, n.server.m, if n.server.Got? then n.asked[n.server.c] else Rot13.Rot13(n.asked[n.server.c])))
  }

  /** Every page given out is the ROT13 of the body of the request it answers. */
  predicate PagesRight(h: Http) {
    && (forall a :: a in h.accepted ==> |h.accepted[a]| <= MAX_BODY)
    && (forall a :: a in h.finished && h.finished[a].Page? ==>
                      a in h.accepted && h.finished[a].body == Rot13.Rot13(h.accepted[a]))
  }

  // ---- What is known of a job at each point of its use ----

  predicate Settled(ms: Msgs, job: Job) {
    job.slot == Empty || (job.slot.Holds? && job.slot.m in ms.failed)
  }

  predicate Clean(ms: Msgs, job: Job) {
    job.httpAio == None && job.httpRes == None && job.msg == None && job.ctx == None && Settled(ms, job)
  }

  predicate Unasked(n: Net, job: Job) {
    job.ctx.Some? && job.ctx.value !in n.asked
  }

  /** The job carries an HTTP aio with a request body, a response object and a context. */
  predicate Loaded(h: Http, job: Job) {
    job.httpAio.Some? && job.httpAio.value in h.accepted && job.httpRes.Some? && job.ctx.Some?
  }

  predicate Carries(h: Http, job: Job, data: Bytes) {
    Loaded(h, job) && h.accepted[job.httpAio.value] == data
  }

  /** What was asked on a context is on its way to the server, with it, or answered and not yet delivered. */
  predicate Pending(n: Net, c: CtxId) {
    c in n.wire || (!n.server.Idle? && n.server.c == c)
  }

  predicate Asked(h: Http, n: Net, job: Job) {
    && job.ctx.Some? && job.ctx.value in n.asked && Pending(n, job.ctx.value)
    && Carries(h, job, n.asked[job.ctx.value])
  }

  predicate Sending(s: State, job: Job) {
    && Loaded(s.http, job) && Unasked(s.net, job)
    && job.state == SendReq && job.msg == None && job.slot.Holds? && job.slot.m !in s.msgs.failed
    && BodyIs(s.msgs, job.slot.m, s.http.accepted[job.httpAio.value])
  }

  predicate SendEnded(s: State, job: Job) {
    && Loaded(s.http, job) && job.msg == None && job.state == SendReq
    && if job.succeeded then Asked(s.http, s.net, job) && job.slot.Stale? else Settled(s.msgs, job)
  }

  predicate Awaiting(s: State, job: Job) {
    Asked(s.http, s.net, job) && job.msg == None && job.state == RecvRep && job.slot == Empty
  }

  predicate RecvEnded(s: State, job: Job) {
    && Loaded(s.http, job) && job.msg == None && job.state == RecvRep
    && if job.succeeded
       then
         && job.slot.Holds? && job.slot.m !in s.msgs.failed
         && BodyIs(s.msgs, job.slot.m, Rot13.Rot13(s.http.accepted[job.httpAio.value]))
       else job.slot == Empty
  }

  predicate Replying(s: State, job: Job) {
    && Loaded(s.http, job) && job.slot == Empty && job.msg.Some?
    && BodyIs(s.msgs, job.msg.value, Rot13.Rot13(s.http.accepted[job.httpAio.value]))
  }

  /** What a thread about to run `pc` knows of the job it holds. */
  predicate JobReady(s: State, pc: Thread, job: Job) {
    match pc
    case MakeRes(_, _) => Clean(s.msgs, job)
    case OpenCtx(_, _) => Clean(s.msgs, job.(httpRes := None)) && job.httpRes.Some?
    case Attach(_, _) => Clean(s.msgs, job.(httpRes := None, ctx := None)) && job.httpRes.Some? && Unasked(s.net, job)
    case NewMsg(_, data) => Carries(s.http, job, data) && Unasked(s.net, job) && job.msg == None && Settled(s.msgs, job)
    case Load(_, data) => Carries(s.http, job, data) && Unasked(s.net, job) && job.msg.Some? && Settled(s.msgs, job)
    case StartSend(_) => Sending(s, job)
    case Dispatch(_) => SendEnded(s, job) || RecvEnded(s, job)
    case StartRecv(_) => Awaiting(s, job)
    case Reply(_) => Replying(s, job)
    case Respond(_) =>
      && Loaded(s.http, job) && job.slot == Empty
      && job.httpRes == Some(Rot13.Rot13(s.http.accepted[job.httpAio.value]))
    case Fatal(_) => Loaded(s.http, job) && Settled(s.msgs, job)
    case FatalFinish(_, _, hasRes) => hasRes && job.httpAio == None && Settled(s.msgs, job)
    case Clear(_, _) => job.httpAio == None && Settled(s.msgs, job)
    case Push(_, _) => Clean(s.msgs, job)
    case _ => true
  }

  predicate OpReady(s: State, op: Op, job: Job) {
    match op
    case Op(SendReq, false) => Sending(s, job)
    case Op(SendReq, true) => SendEnded(s, job)
    case Op(RecvRep, false) => Awaiting(s, job)
    case Op(RecvRep, true) => RecvEnded(s, job)
  }

  /** What is known of a job whoever holds it. */
  predicate Ready(s: State, j: JobId, h: Holder) {
    && j in s.pool.jobs
    && match h
       case OnFreelist => Clean(s.msgs, s.pool.jobs[j])
       case InFlight => j in s.pool.ops && OpReady(s, s.pool.ops[j], s.pool.jobs[j])
       case ByThread(t) => t in s.threads && JobReady(s, s.threads[t], s.pool.jobs[j])
  }

  ghost predicate PhaseInv(s: State) {
    forall j :: j in s.pool.holder ==> Ready(s, j, s.pool.holder[j])
  }

  ghost predicate Inv(s: State) {
    && !s.fault
    && HolderInv(s.pool, s.threads)
    && DutyInv(s.http, s.pool.jobs, s.threads)
    && MsgInv(s.msgs, s.pool.jobs, s.net)
    && CtxInv(s.net, s.pool.jobs)
    && NetInv(s.net, s.msgs)
    && PagesRight(s.http)
    && PhaseInv(s)
  }

  lemma InitInv()
    ensures Inv(INIT)
  {
  }
}
