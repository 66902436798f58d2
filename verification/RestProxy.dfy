/**
 The REST-to-REQ proxy as a state machine over atomic sections.

 HTTP handlers and aio callbacks run as threads; what each does between two points where another
 thread can observe it is one `Run` event.  Starting an asynchronous operation and releasing the
 `unique_ptr` afterwards are separate sections, and an operation may complete, run its callback and
 even recycle the job in between.

 Three tokens record who is entitled to a resource: the holder of a job, the owner of a message, the
 thread or job that must still answer an HTTP aio.  A section that touches a resource without its
 token, frees a message twice or finishes an aio twice sets `fault`.
 */
module RestProxy {
  import opened Bytes
  import Rot13

  type JobId = int
  type ThreadId = int
  type AioId = int
  type MsgId = int
  type CtxId = int

  /** The HTTP handler collects at most this many body bytes. */
  const MAX_BODY: int := 1024 * 128

  datatype JobState = SendReq | RecvRep

  /** The message pointer kept by a job's aio; `Stale` is left behind when the library took the message. */
  datatype Slot = Empty | Holds(m: MsgId) | Stale(m: MsgId)

  datatype Job = Job(
    httpAio: Option<AioId>, httpRes: Option<Bytes>, state: JobState, msg: Option<MsgId>,
    slot: Slot, succeeded: bool, ctx: Option<CtxId>)

  const NEW_JOB := Job(None, None, SendReq, None, Empty, true, None)

  /** The next section a thread will run. */
  datatype Thread =
    | Get(aio: AioId)
    | Alloc(aio: AioId)
    | MakeRes(aio: AioId, job: JobId)
    | OpenCtx(aio: AioId, job: JobId)
    | Attach(aio: AioId, job: JobId)
    | NewMsg(job: JobId, data: Bytes)
    | Load(job: JobId, data: Bytes)
    | StartSend(job: JobId)
    | Dispatch(job: JobId)
    | StartRecv(job: JobId)
    | Reply(job: JobId)
    | Respond(job: JobId)
    | Fatal(job: JobId)
    | FatalFinish(aio: AioId, job: JobId, hasRes: bool)
    | Clear(job: JobId, refuse: Option<AioId>)
    | Push(job: JobId, refuse: Option<AioId>)
    | Refuse(aio: AioId)
    | Releasing

  datatype Op = Op(kind: JobState, completed: bool)

  datatype Response = Page(body: Bytes) | ServerError | Refused

  datatype Holder = OnFreelist | ByThread(t: ThreadId) | InFlight
  datatype Duty = Local(t: ThreadId) | Parked(j: JobId)
  datatype Place = JobMsg(j: JobId) | JobSlot(j: JobId) | Socket(c: CtxId) | AtServer

  datatype Cell = Cell(body: Bytes, owner: Place)
  datatype Wire = Request(m: MsgId) | Answer(m: MsgId)
  datatype Server = Idle | Got(c: CtxId, m: MsgId) | Turned(c: CtxId, m: MsgId)

  /** Jobs, the freelist with its head first, the operations in progress, and who holds each job. */
  datatype Pool = Pool(jobs: map<JobId, Job>, free: seq<JobId>, ops: map<JobId, Op>, holder: map<JobId, Holder>)

  /** HTTP aios: request bodies, responses given, and who must still answer. */
  datatype Http = Http(accepted: map<AioId, Bytes>, finished: map<AioId, Response>, duty: map<AioId, Duty>,
                       misused: bool)

  /** Live messages, and the ones whose REQ send failed. */
  datatype Msgs = Msgs(heap: map<MsgId, Cell>, failed: set<MsgId>, misused: bool)

  /**
   Contexts ever opened, the job each open one belongs to, what was asked on each, and what the library keeps
   for it.
   */
  datatype Net = Net(used: set<CtxId>, open: map<CtxId, JobId>, asked: map<CtxId, Bytes>, wire: map<CtxId, Wire>,
                     server: Server)

  datatype State = State(exited: bool, fault: bool, threads: map<ThreadId, Thread>,
                         pool: Pool, http: Http, msgs: Msgs, net: Net)

  const INIT := State(false, false, map[], Pool(map[], [], map[], map[]), Http(map[], map[], map[], false),
                      Msgs(map[], {}, false), Net({}, map[], map[], map[], Idle))

  predicate Faulted(s: State) { s.fault || s.http.misused || s.msgs.misused }

  /** The job a thread will still touch. */
  function JobOf(pc: Thread): Option<JobId> {
    if pc.Get? || pc.Alloc? || pc.Refuse? || pc.Releasing? then None else Some(pc.job)
  }

  /** The HTTP aio a thread itself must still answer. */
  function AioOf(pc: Thread): Option<AioId> {
    match pc
    case Get(a) => Some(a)
    case Alloc(a) => Some(a)
    case MakeRes(a, _) => Some(a)
    case OpenCtx(a, _) => Some(a)
    case Attach(a, _) => Some(a)
    case FatalFinish(a, _, _) => Some(a)
    case Clear(_, r) => r
    case Push(_, r) => r
    case Refuse(a) => Some(a)
    case _ => None
  }

  // ---- Small updates, each guarded by its token ----

  function Faulty(s: State): State { s.(fault := true) }
  function Exit(s: State): State { s.(exited := true) }
  function Go(s: State, t: ThreadId, pc: Thread): State { s.(threads := s.threads[t := pc]) }
  function SetJob(p: Pool, j: JobId, job: Job): Pool { p.(jobs := p.jobs[j := job]) }
  function HandTo(p: Pool, j: JobId, h: Holder): Pool { p.(holder := p.holder[j := h]) }

  function PutMsg(ms: Msgs, m: MsgId, c: Cell): Msgs { ms.(heap := ms.heap[m := c]) }

  /** Destroying an `nng::msg`, which may hold no message. */
  function DropMsg(ms: Msgs, m: Option<MsgId>, at: Place): Msgs {
    if m == None then ms
    else if m.value in ms.heap && ms.heap[m.value].owner == at then ms.(heap := ms.heap - {m.value})
    else ms.(misused := true)
  }

  function MoveMsg(ms: Msgs, m: MsgId, from: Place, to: Place): Msgs {
    if m in ms.heap && ms.heap[m].owner == from then PutMsg(ms, m, ms.heap[m].(owner := to)) else ms.(misused := true)
  }

  function Finish(h: Http, a: AioId, who: Duty, r: Response): Http {
    if a in h.duty && h.duty[a] == who
    then h.(finished := h.finished[a := r], duty := h.duty - {a})
    else h.(misused := true)
  }

  function PassDuty(h: Http, a: AioId, from: Duty, to: Duty): Http {
    if a in h.duty && h.duty[a] == from then h.(duty := h.duty[a := to]) else h.(misused := true)
  }

  function OpenCtxFor(n: Net, c: CtxId, j: JobId): Net { n.(used := n.used + {c}, open := n.open[c := j]) }

  /** A request on its way to the server. */
  predicate Unserved(n: Net, c: CtxId) { c in n.wire && n.wire[c].Request? }

  /** The reply the library still keeps for a context; closing the context frees it. */
  function Kept(n: Net, c: Option<CtxId>): Option<MsgId> {
    if c.Some? && c.value in n.wire && n.wire[c.value].Answer? then Some(n.wire[c.value].m) else None
  }

  /** A request already on its way can still be served after its context is closed. */
  function CloseCtx(n: Net, c: Option<CtxId>): Net {
    if c == None then n
    else n.(open := n.open - {c.value}, wire := if Unserved(n, c.value) then n.wire else n.wire - {c.value})
  }

  function DropCtx(ms: Msgs, n: Net, c: Option<CtxId>): Msgs {
    if c == None then ms else DropMsg(ms, Kept(n, c), Socket(c.value))
  }

  // ---- The sections of the two entry points ----

  /** `rest_get_job` up to the unlock. */
  function DoGet(s: State, t: ThreadId, a: AioId): State {
    var p := s.pool;
    if p.free == [] then Go(s, t, Alloc(a))
    else Go(s.(pool := HandTo(p.(free := p.free[1..]), p.free[0], ByThread(t))), t, MakeRes(a, p.free[0]))
  }

  /** `make_unique`: it throws rather than returning null, which ends in `exit(1)`. */
  function DoAlloc(s: State, t: ThreadId, a: AioId, ok: bool, j: JobId): State {
    if !ok then Exit(s)
    else Go(s.(pool := HandTo(SetJob(s.pool, j, NEW_JOB), j, ByThread(t))), t, MakeRes(a, j))
  }

  function DoMakeRes(s: State, t: ThreadId, a: AioId, j: JobId, job: Job, ok: bool): State {
    if !ok then Go(s, t, Clear(j, Some(a)))
    else Go(s.(pool := SetJob(s.pool, j, job.(httpRes := Some([])))), t, OpenCtx(a, j))
  }

  function DoOpenCtx(s: State, t: ThreadId, a: AioId, j: JobId, job: Job, ok: bool, c: CtxId): State {
    if !ok then Go(s, t, Clear(j, Some(a)))
    else
      Go(s.(pool := SetJob(s.pool, j, job.(ctx := Some(c))),
            msgs := DropCtx(s.msgs, s.net, job.ctx), net := OpenCtxFor(CloseCtx(s.net, job.ctx), c, j)),
         t, Attach(a, j))
  }

  function DoAttach(s: State, t: ThreadId, a: AioId, j: JobId, job: Job): State {
    if a !in s.http.accepted then Faulty(s)
    else
      Go(s.(pool := SetJob(s.pool, j, job.(httpAio := Some(a))), http := PassDuty(s.http, a, Local(t), Parked(j))),
         t, NewMsg(j, s.http.accepted[a]))
  }

  function DoNewMsg(s: State, t: ThreadId, j: JobId, job: Job, data: Bytes, ok: bool, m: MsgId): State {
    if !ok then Go(s, t, Fatal(j))
    else
      Go(s.(pool := SetJob(s.pool, j, job.(msg := Some(m))),
            msgs := PutMsg(DropMsg(s.msgs, job.msg, JobMsg(j)), m, Cell(seq(|data|, _ => 0), JobMsg(j)))),
         t, Load(j, data))
  }

  /** Copy the payload, move the message into the aio slot (overwriting what the slot held), set the state. */
  function DoLoad(s: State, t: ThreadId, j: JobId, job: Job, data: Bytes): State {
    if job.msg == None || job.msg.value !in s.msgs.heap || s.msgs.heap[job.msg.value].owner != JobMsg(j) then Faulty(s)
    else
      Go(s.(pool := SetJob(s.pool, j, job.(msg := None, slot := Holds(job.msg.value), state := SendReq)),
            msgs := PutMsg(s.msgs, job.msg.value, Cell(data, JobSlot(j)))),
         t, StartSend(j))
  }

  /** Starting an operation hands the job to the library. */
  function StartOp(s: State, t: ThreadId, j: JobId, job: Job, kind: JobState): State {
    if job.ctx == None || j in s.pool.ops then Faulty(s)
    else Go(s.(pool := HandTo(s.pool, j, InFlight).(ops := s.pool.ops[j := Op(kind, false)])), t, Releasing)
  }

  /** The head of `rest_job_cb`: look at the state and at the result of the operation. */
  function DoDispatch(s: State, t: ThreadId, j: JobId, job: Job): State {
    if !job.succeeded then Go(s, t, Fatal(j))
    else if job.state == SendReq then
      Go(s.(pool := SetJob(s.pool, j, job.(slot := Empty, state := RecvRep))), t, StartRecv(j))
    else
      var ms := DropMsg(s.msgs, job.msg, JobMsg(j));
      match job.slot
      case Empty => Go(s.(pool := SetJob(s.pool, j, job.(msg := None)), msgs := ms), t, Reply(j))
      case Stale(_) => Faulty(s)
      case Holds(m) =>
        Go(s.(pool := SetJob(s.pool, j, job.(msg := Some(m), slot := Empty)),
              msgs := MoveMsg(ms, m, JobSlot(j), JobMsg(j))),
           t, Reply(j))
  }

  function DoReply(s: State, t: ThreadId, j: JobId, job: Job, ok: bool): State {
    if job.msg == None || job.msg.value !in s.msgs.heap || job.httpRes == None then Faulty(s)
    else if !ok then Go(s, t, Fatal(j))
    else Go(s.(pool := SetJob(s.pool, j, job.(httpRes := Some(s.msgs.heap[job.msg.value].body)))), t, Respond(j))
  }

  function DoRespond(s: State, t: ThreadId, j: JobId, job: Job, ok: bool): State {
    if job.httpAio == None || job.httpRes == None then Faulty(s)
    else if !ok then Exit(s)
    else
      Go(s.(pool := SetJob(s.pool, j, job.(httpRes := None, httpAio := None)),
            http := Finish(s.http, job.httpAio.value, Parked(j), Page(job.httpRes.value))),
         t, Clear(j, None))
  }

  /** The head of `rest_http_fatal`: take the aio and the response object out of the job. */
  function DoFatal(s: State, t: ThreadId, j: JobId, job: Job): State {
    if job.httpAio == None then Faulty(s)
    else
      Go(s.(pool := SetJob(s.pool, j, job.(httpAio := None, httpRes := None)),
            http := PassDuty(s.http, job.httpAio.value, Parked(j), Local(t))),
         t, FatalFinish(job.httpAio.value, j, job.httpRes.Some?))
  }

  function DoFatalFinish(s: State, t: ThreadId, a: AioId, j: JobId, hasRes: bool, ok: bool): State {
    if !hasRes then Faulty(s)
    else if !ok then Exit(s)
    else Go(s.(http := Finish(s.http, a, Local(t), ServerError)), t, Clear(j, None))
  }

  /** `rest_recycle_job` before the lock; closing the context may throw. */
  function DoClear(s: State, t: ThreadId, j: JobId, job: Job, refuse: Option<AioId>, ok: bool): State {
    if !ok && job.ctx.Some? then Exit(s)
    else
      Go(s.(pool := SetJob(s.pool, j, job.(httpRes := None, msg := None, ctx := None)),
            msgs := DropCtx(DropMsg(s.msgs, job.msg, JobMsg(j)), s.net, job.ctx), net := CloseCtx(s.net, job.ctx)),
         t, Push(j, refuse))
  }

  /** `rest_recycle_job` under the lock. */
  function DoPush(s: State, t: ThreadId, j: JobId, refuse: Option<AioId>): State {
    var s1 := s.(pool := HandTo(s.pool.(free := [j] + s.pool.free), j, OnFreelist));
    if refuse == None then s1.(threads := s1.threads - {t}) else Go(s1, t, Refuse(refuse.value))
  }

  function DoRefuse(s: State, t: ThreadId, a: AioId): State {
    s.(threads := s.threads - {t}, http := Finish(s.http, a, Local(t), Refused))
  }

  /** A section of a thread that holds `j`. */
  function JobSection(s: State, t: ThreadId, j: JobId, ok: bool, id: int): State
    requires t in s.threads && JobOf(s.threads[t]) == Some(j) && j in s.pool.jobs
  {
    var job := s.pool.jobs[j];
    match s.threads[t]
    case MakeRes(a, _) => DoMakeRes(s, t, a, j, job, ok)
    case OpenCtx(a, _) => DoOpenCtx(s, t, a, j, job, ok, id)
    case Attach(a, _) => DoAttach(s, t, a, j, job)
    case NewMsg(_, data) => DoNewMsg(s, t, j, job, data, ok, id)
    case Load(_, data) => DoLoad(s, t, j, job, data)
    case StartSend(_) => StartOp(s, t, j, job, SendReq)
    case Dispatch(_) => DoDispatch(s, t, j, job)
    case StartRecv(_) => StartOp(s, t, j, job, RecvRep)
    case Reply(_) => DoReply(s, t, j, job, ok)
    case Respond(_) => DoRespond(s, t, j, job, ok)
    case Fatal(_) => DoFatal(s, t, j, job)
    case FatalFinish(a, _, r) => DoFatalFinish(s, t, a, j, r, ok)
    case Clear(_, r) => DoClear(s, t, j, job, r, ok)
    case Push(_, r) => DoPush(s, t, j, r)
  }

  /** One section of thread `t`; `ok` and `id` are what the library calls in it return. */
  function Section(s: State, t: ThreadId, ok: bool, id: int): State
    requires t in s.threads
  {
    var j := JobOf(s.threads[t]);
    match s.threads[t]
    case Get(a) => DoGet(s, t, a)
    case Alloc(a) => DoAlloc(s, t, a, ok, id)
    case Refuse(a) => DoRefuse(s, t, a)
    case Releasing => s.(threads := s.threads - {t})
    case _ =>
      if j.value in s.pool.jobs && j.value in s.pool.holder && s.pool.holder[j.value] == ByThread(t)
      then JobSection(s, t, j.value, ok, id)
      else Faulty(s)
  }

  // ---- The library, the REP server and the HTTP clients ----

  datatype Event =
    | Accept(t: ThreadId, a: AioId, body: Bytes)
    | Run(t: ThreadId, ok: bool, id: int)
    | SendDone(j: JobId, ok: bool)
    | RecvDone(j: JobId, ok: bool)
    | Callback(t: ThreadId, j: JobId)
    | ServerRecv(c: CtxId, ok: bool)
    | ServerTurn
    | ServerSend(ok: bool)
    | Lapse(c: CtxId)

  predicate InProgress(p: Pool, j: JobId, kind: JobState) {
    j in p.jobs && j in p.ops && p.ops[j] == Op(kind, false)
  }

  predicate Answered(n: Net, c: Option<CtxId>) {
    c.Some? && c.value in n.wire && n.wire[c.value].Answer?
  }

  predicate Enabled(s: State, e: Event) {
    && !s.exited
    && match e
       case Accept(t, a, body) => t !in s.threads && a !in s.http.accepted && |body| <= MAX_BODY
       case Run(t, ok, id) =>
         && t in s.threads
         && (s.threads[t].Alloc? ==> id !in s.pool.jobs)
         && (s.threads[t].OpenCtx? ==> id !in s.net.used)
         && (s.threads[t].NewMsg? ==> id !in s.msgs.heap)
       case SendDone(j, _) => InProgress(s.pool, j, SendReq)
       case RecvDone(j, ok) => InProgress(s.pool, j, RecvRep) && (ok ==> Answered(s.net, s.pool.jobs[j].ctx))
       case Callback(t, j) => j in s.pool.ops && s.pool.ops[j].completed && t !in s.threads
       case ServerRecv(c, _) => s.net.server == Idle && Unserved(s.net, c)
       case ServerTurn => s.net.server.Got?
       case ServerSend(_) => s.net.server.Turned?
       case Lapse(c) => Unserved(s.net, c) && c !in s.net.open
  }

  function Complete(p: Pool, j: JobId, kind: JobState, job: Job): Pool {
    SetJob(p, j, job).(ops := p.ops[j := Op(kind, true)])
  }

  function DoSendDone(s: State, j: JobId, job: Job, ok: bool): State {
    if !job.slot.Holds? || job.ctx == None || job.slot.m !in s.msgs.heap then Faulty(s)
    else
      var m, c := job.slot.m, job.ctx.value;
      if !ok then
        s.(pool := Complete(s.pool, j, SendReq, job.(succeeded := false)),
           msgs := s.msgs.(failed := s.msgs.failed + {m}))
      else
        s.(pool := Complete(s.pool, j, SendReq, job.(succeeded := true, slot := Stale(m))),
           msgs := MoveMsg(s.msgs, m, JobSlot(j), Socket(c)),
           net := s.net.(asked := s.net.asked[c := s.msgs.heap[m].body], wire := s.net.wire[c := Request(m)]))
  }

  /** The reply delivered on a context is the one kept for that context. */
  function DoRecvDone(s: State, j: JobId, job: Job, ok: bool): State
    requires ok ==> Answered(s.net, job.ctx)
  {
    if !ok then s.(pool := Complete(s.pool, j, RecvRep, job.(succeeded := false)))
    else
      var c := job.ctx.value;
      var m := s.net.wire[c].m;
      s.(pool := Complete(s.pool, j, RecvRep, job.(succeeded := true, slot := Holds(m))),
         msgs := MoveMsg(s.msgs, m, Socket(c), JobSlot(j)),
         net := s.net.(wire := s.net.wire - {c}))
  }

  function DoCallback(s: State, t: ThreadId, j: JobId): State {
    Go(s.(pool := HandTo(s.pool, j, ByThread(t)).(ops := s.pool.ops - {j})), t, Dispatch(j))
  }

  function DoServerRecv(s: State, c: CtxId): State
    requires c in s.net.wire
  {
    var m := s.net.wire[c].m;
    s.(msgs := MoveMsg(s.msgs, m, Socket(c), AtServer), net := s.net.(wire := s.net.wire - {c}, server := Got(c, m)))
  }

  function DoServerTurn(s: State, c: CtxId, m: MsgId): State {
    if m !in s.msgs.heap || s.msgs.heap[m].owner != AtServer then Faulty(s)
    else
      s.(msgs := PutMsg(s.msgs, m, Cell(Rot13.Loop(s.msgs.heap[m].body), AtServer)),
         net := s.net.(server := Turned(c, m)))
  }

  /** A reply whose context is gone is discarded by the socket. */
  function DoServerSend(s: State, c: CtxId, m: MsgId): State {
    if c in s.net.open
    then s.(msgs := MoveMsg(s.msgs, m, AtServer, Socket(c)),
            net := s.net.(wire := s.net.wire[c := Answer(m)], server := Idle))
    else s.(msgs := DropMsg(s.msgs, Some(m), AtServer), net := s.net.(server := Idle))
  }

  /** The library withdraws the request of a closed context. */
  function DoLapse(s: State, c: CtxId): State
    requires c in s.net.wire
  {
    s.(msgs := DropMsg(s.msgs, Some(s.net.wire[c].m), Socket(c)), net := s.net.(wire := s.net.wire - {c}))
  }

  function DoAccept(s: State, t: ThreadId, a: AioId, body: Bytes): State {
    Go(s.(http := s.http.(accepted := s.http.accepted[a := body], duty := s.http.duty[a := Local(t)])), t, Get(a))
  }

  function Do(s: State, e: Event): State
    requires Enabled(s, e)
  {
    match e
    case Accept(t, a, body) => DoAccept(s, t, a, body)
    case Run(t, ok, id) => Section(s, t, ok, id)
    case SendDone(j, ok) => DoSendDone(s, j, s.pool.jobs[j], ok)
    case RecvDone(j, ok) => DoRecvDone(s, j, s.pool.jobs[j], ok)
    case Callback(t, j) => DoCallback(s, t, j)
    case ServerRecv(c, ok) => if ok then DoServerRecv(s, c) else Exit(s)
    case ServerTurn => DoServerTurn(s, s.net.server.c, s.net.server.m)
    case ServerSend(ok) => if ok then DoServerSend(s, s.net.server.c, s.net.server.m) else Exit(s)
    case Lapse(c) => DoLapse(s, c)
  }

  /** An event that cannot happen in a state leaves it alone, so every sequence of events is a run. */
  function Step(s: State, e: Event): State {
    if Enabled(s, e) then Do(s, e) else s
  }

  function After(run: seq<Event>): State {
    if run == [] then INIT else Step(After(run[..|run| - 1]), run[|run| - 1])
  }
}
