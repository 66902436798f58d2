/** How each part of the proxy's invariant survives the few kinds of update the sections make. */
module RestFrames {
  import opened Bytes
  import opened RestProxy
  import opened RestInvariant
  import Rot13

  type Jobs = map<JobId, Job>
  type Threads = map<ThreadId, Thread>

  // ---- Who holds a job ----

  lemma HolderMoves(p: Pool, ths: Threads, t: ThreadId, pc: Thread, j: JobId, job: Job)
    requires HolderInv(p, ths) && t in ths && JobOf(ths[t]) == JobOf(pc) == Some(j)
    ensures HolderInv(SetJob(p, j, job), ths[t := pc])
  {
  }

  lemma HolderRuns(p: Pool, ths: Threads, t: ThreadId, pc: Thread)
    requires HolderInv(p, ths) && t in ths && JobOf(ths[t]) == JobOf(pc)
    ensures HolderInv(p, ths[t := pc])
  {
  }

  lemma HolderIdle(p: Pool, ths: Threads, t: ThreadId, pc: Thread)
    requires HolderInv(p, ths) && (t in ths ==> JobOf(ths[t]) == None) && JobOf(pc) == None
    ensures HolderInv(p, ths[t := pc]) && HolderInv(p, ths - {t})
  {
  }

  lemma TailDistinct(s: seq<JobId>, rest: seq<JobId>)
    requires Distinct(s) && s != [] && rest == s[1..]
    ensures Distinct(rest) && s[0] !in rest && forall j :: j in s <==> j == s[0] || j in rest
  {
    assert s == [s[0]] + rest;
  }

  lemma HolderTakes(p: Pool, ths: Threads, t: ThreadId, pc: Thread)
    requires HolderInv(p, ths) && p.free != [] && (t in ths ==> JobOf(ths[t]) == None) && JobOf(pc) == Some(p.free[0])
    ensures HolderInv(HandTo(p.(free := p.free[1..]), p.free[0], ByThread(t)), ths[t := pc])
  {
    hide Distinct;
    var head, rest := p.free[0], p.free[1..];
    TailDistinct(p.free, rest);
    assert head in p.free;
  }

  lemma HolderAllocates(p: Pool, ths: Threads, t: ThreadId, pc: Thread, j: JobId, job: Job)
    requires HolderInv(p, ths) && j !in p.jobs && (t in ths ==> JobOf(ths[t]) == None) && JobOf(pc) == Some(j)
    ensures HolderInv(HandTo(SetJob(p, j, job), j, ByThread(t)), ths[t := pc])
  {
  }

  lemma HolderStarts(p: Pool, ths: Threads, t: ThreadId, pc: Thread, j: JobId, op: Op)
    requires HolderInv(p, ths) && t in ths && JobOf(ths[t]) == Some(j) && JobOf(pc) == None
    ensures j !in p.ops && HolderInv(HandTo(p, j, InFlight).(ops := p.ops[j := op]), ths[t := pc])
  {
  }

  lemma HolderCallsBack(p: Pool, ths: Threads, t: ThreadId, pc: Thread, j: JobId)
    requires HolderInv(p, ths) && j in p.ops && t !in ths && JobOf(pc) == Some(j)
    ensures HolderInv(HandTo(p, j, ByThread(t)).(ops := p.ops - {j}), ths[t := pc])
  {
  }

  lemma HolderCompletes(p: Pool, ths: Threads, j: JobId, kind: JobState, job: Job)
    requires HolderInv(p, ths) && j in p.ops
    ensures HolderInv(Complete(p, j, kind, job), ths)
  {
  }

  lemma HolderPushes(p: Pool, ths: Threads, t: ThreadId, pc: Thread, j: JobId)
    requires HolderInv(p, ths) && t in ths && JobOf(ths[t]) == Some(j) && JobOf(pc) == None
    ensures HolderInv(HandTo(p.(free := [j] + p.free), j, OnFreelist), ths[t := pc])
    ensures HolderInv(HandTo(p.(free := [j] + p.free), j, OnFreelist), ths - {t})
  {
    var q := HandTo(p.(free := [j] + p.free), j, OnFreelist);
    assert forall k :: k in q.free <==> k == j || k in p.free;
  }

  // ---- Who must answer an HTTP aio ----

  lemma DutyStays(h: Http, jobs: Jobs, ths: Threads, t: ThreadId, pc: Thread, j: JobId, job: Job)
    requires DutyInv(h, jobs, ths)
    requires (if t in ths then AioOf(ths[t]) else None) == AioOf(pc)
    requires (if j in jobs then jobs[j].httpAio else None) == job.httpAio
    ensures DutyInv(h, jobs[j := job], ths[t := pc])
  {
  }

  lemma DutyRuns(h: Http, jobs: Jobs, ths: Threads, t: ThreadId, pc: Thread)
    requires DutyInv(h, jobs, ths) && (if t in ths then AioOf(ths[t]) else None) == AioOf(pc)
    ensures DutyInv(h, jobs, ths[t := pc])
  {
  }

  lemma DutyStaysPut(h: Http, jobs: Jobs, ths: Threads, j: JobId, job: Job)
    requires DutyInv(h, jobs, ths) && j in jobs && jobs[j].httpAio == job.httpAio
    ensures DutyInv(h, jobs[j := job], ths)
  {
  }

  lemma DutyLeaves(h: Http, jobs: Jobs, ths: Threads, t: ThreadId)
    requires DutyInv(h, jobs, ths) && (t in ths ==> AioOf(ths[t]) == None)
    ensures DutyInv(h, jobs, ths - {t})
  {
  }

  lemma DutyAccepts(h: Http, jobs: Jobs, ths: Threads, t: ThreadId, a: AioId, body: Bytes)
    requires DutyInv(h, jobs, ths) && t !in ths && a !in h.accepted
    ensures DutyInv(h.(accepted := h.accepted[a := body], duty := h.duty[a := Local(t)]), jobs, ths[t := Get(a)])
  {
  }

  lemma DutyParks(h: Http, jobs: Jobs, ths: Threads, t: ThreadId, pc: Thread, a: AioId, j: JobId, job: Job)
    requires DutyInv(h, jobs, ths) && t in ths && AioOf(ths[t]) == Some(a) && AioOf(pc) == None
    requires j in jobs && jobs[j].httpAio == None && job.httpAio == Some(a)
    ensures DutyInv(PassDuty(h, a, Local(t), Parked(j)), jobs[j := job], ths[t := pc])
  {
  }

  lemma DutyUnparks(h: Http, jobs: Jobs, ths: Threads, t: ThreadId, pc: Thread, a: AioId, j: JobId, job: Job)
    requires DutyInv(h, jobs, ths) && t in ths && AioOf(ths[t]) == None && AioOf(pc) == Some(a)
    requires j in jobs && jobs[j].httpAio == Some(a) && job.httpAio == None
    ensures DutyInv(PassDuty(h, a, Parked(j), Local(t)), jobs[j := job], ths[t := pc])
  {
  }

  lemma DutyDoneLocally(h: Http, jobs: Jobs, ths: Threads, t: ThreadId, pc: Thread, a: AioId, r: Response)
    requires DutyInv(h, jobs, ths) && t in ths && AioOf(ths[t]) == Some(a) && AioOf(pc) == None
    ensures DutyInv(Finish(h, a, Local(t), r), jobs, ths[t := pc])
    ensures DutyInv(Finish(h, a, Local(t), r), jobs, ths - {t})
  {
  }

  lemma DutyDoneParked(h: Http, jobs: Jobs, ths: Threads, t: ThreadId, pc: Thread, a: AioId, j: JobId, job: Job,
                       r: Response)
    requires DutyInv(h, jobs, ths) && t in ths && AioOf(ths[t]) == AioOf(pc) == None
    requires j in jobs && jobs[j].httpAio == Some(a) && job.httpAio == None
    ensures DutyInv(Finish(h, a, Parked(j), r), jobs[j := job], ths[t := pc])
  {
  }

  // ---- Who owns a message ----

  function SlotMsg(slot: Slot): Option<MsgId> {
    if slot.Holds? then Some(slot.m) else None
  }

  lemma MsgStays(ms: Msgs, jobs: Jobs, n: Net, j: JobId, job: Job, n': Net)
    requires MsgInv(ms, jobs, n) && n'.wire == n.wire && n'.server == n.server
    requires (if j in jobs then jobs[j].msg else None) == job.msg
    requires (if j in jobs then SlotMsg(jobs[j].slot) else None) == SlotMsg(job.slot)
    ensures MsgInv(ms, jobs[j := job], n')
  {
  }

  lemma MsgAllocated(ms: Msgs, jobs: Jobs, n: Net, j: JobId, job: Job, m: MsgId, body: Bytes)
    requires MsgInv(ms, jobs, n) && m !in ms.heap
    requires j in jobs && jobs[j].msg == None && job.msg == Some(m) && job.slot == jobs[j].slot
    ensures MsgInv(PutMsg(ms, m, Cell(body, JobMsg(j))), jobs[j := job], n)
  {
  }

  /** Filling the slot loses nothing as long as what it held, if anything, is a message whose send failed. */
  lemma MsgLoaded(ms: Msgs, jobs: Jobs, n: Net, j: JobId, job: Job, m: MsgId, body: Bytes)
    requires MsgInv(ms, jobs, n) && j in jobs && jobs[j].msg == Some(m) && Settled(ms, jobs[j])
    requires job.msg == None && job.slot == Holds(m)
    ensures MsgInv(PutMsg(ms, m, Cell(body, JobSlot(j))), jobs[j := job], n)
  {
  }

  lemma MsgSent(ms: Msgs, jobs: Jobs, n: Net, j: JobId, job: Job, m: MsgId, c: CtxId, n': Net)
    requires MsgInv(ms, jobs, n) && j in jobs && jobs[j].slot == Holds(m) && m !in ms.failed && c !in n.wire
    requires job.msg == jobs[j].msg && !job.slot.Holds?
    requires n'.wire == n.wire[c := Request(m)] && n'.server == n.server
    ensures MsgInv(MoveMsg(ms, m, JobSlot(j), Socket(c)), jobs[j := job], n')
  {
  }

  lemma MsgSendFailed(ms: Msgs, jobs: Jobs, n: Net, j: JobId, m: MsgId)
    requires MsgInv(ms, jobs, n) && j in jobs && jobs[j].slot == Holds(m)
    ensures MsgInv(ms.(failed := ms.failed + {m}), jobs, n)
  {
  }

  lemma MsgReceived(ms: Msgs, jobs: Jobs, n: Net, j: JobId, job: Job, c: CtxId, n': Net)
    requires MsgInv(ms, jobs, n) && j in jobs && jobs[j].slot == Empty && c in n.wire
    requires job.msg == jobs[j].msg && job.slot == Holds(n.wire[c].m)
    requires n'.wire == n.wire - {c} && n'.server == n.server
    ensures n.wire[c].m !in ms.failed
    ensures MsgInv(MoveMsg(ms, n.wire[c].m, Socket(c), JobSlot(j)), jobs[j := job], n')
  {
  }

  lemma MsgReleased(ms: Msgs, jobs: Jobs, n: Net, j: JobId, job: Job, m: MsgId)
    requires MsgInv(ms, jobs, n) && j in jobs && jobs[j].msg == None && jobs[j].slot == Holds(m) && m !in ms.failed
    requires job.msg == Some(m) && job.slot == Empty
    ensures MsgInv(MoveMsg(ms, m, JobSlot(j), JobMsg(j)), jobs[j := job], n)
  {
  }

  lemma MsgDropped(ms: Msgs, jobs: Jobs, n: Net, j: JobId, job: Job)
    requires MsgInv(ms, jobs, n) && j in jobs && job.msg == None && job.slot == jobs[j].slot
    ensures MsgInv(DropMsg(ms, jobs[j].msg, JobMsg(j)), jobs[j := job], n)
  {
  }

  lemma MsgLapses(ms: Msgs, jobs: Jobs, n: Net, c: CtxId, n': Net)
    requires MsgInv(ms, jobs, n) && c in n.wire && n'.wire == n.wire - {c} && n'.server == n.server
    ensures MsgInv(DropMsg(ms, Some(n.wire[c].m), Socket(c)), jobs, n')
  {
  }

  lemma MsgDiscarded(ms: Msgs, jobs: Jobs, n: Net, c: Option<CtxId>)
    requires MsgInv(ms, jobs, n)
    ensures MsgInv(DropCtx(ms, n, c), jobs, CloseCtx(n, c))
  {
    if Kept(n, c).Some? {
      MsgLapses(ms, jobs, n, c.value, CloseCtx(n, c));
    } else {
      assert CloseCtx(n, c).wire == n.wire;
    }
  }

  /** Recycling frees the job's message and whatever the library keeps for its context. */
  lemma MsgCleared(ms: Msgs, jobs: Jobs, n: Net, j: JobId, job: Job)
    requires MsgInv(ms, jobs, n) && j in jobs && job.msg == None && job.slot == jobs[j].slot
    ensures MsgInv(DropCtx(DropMsg(ms, jobs[j].msg, JobMsg(j)), n, jobs[j].ctx), jobs[j := job],
                   CloseCtx(n, jobs[j].ctx))
  {
    MsgDropped(ms, jobs, n, j, job);
    MsgDiscarded(DropMsg(ms, jobs[j].msg, JobMsg(j)), jobs[j := job], n, jobs[j].ctx);
  }

  lemma MsgServed(ms: Msgs, jobs: Jobs, n: Net, c: CtxId, n': Net)
    requires MsgInv(ms, jobs, n) && c in n.wire && n.server == Idle
    requires n'.wire == n.wire - {c} && n'.server == Got(c, n.wire[c].m)
    ensures MsgInv(MoveMsg(ms, n.wire[c].m, Socket(c), AtServer), jobs, n')
  {
  }

  lemma MsgTurned(ms: Msgs, jobs: Jobs, n: Net, body: Bytes, n': Net)
    requires MsgInv(ms, jobs, n) && n.server.Got?
    requires n'.wire == n.wire && n'.server == Turned(n.server.c, n.server.m)
    ensures MsgInv(PutMsg(ms, n.server.m, Cell(body, AtServer)), jobs, n')
  {
  }

  lemma MsgReturned(ms: Msgs, jobs: Jobs, n: Net, c: CtxId, n': Net)
    requires MsgInv(ms, jobs, n) && n.server.Turned? && c !in n.wire
    requires n'.wire == n.wire[c := Answer(n.server.m)] && n'.server == Idle
    ensures MsgInv(MoveMsg(ms, n.server.m, AtServer, Socket(c)), jobs, n')
  {
  }

  lemma MsgOrphaned(ms: Msgs, jobs: Jobs, n: Net, n': Net)
    requires MsgInv(ms, jobs, n) && n.server.Turned?
    requires n'.wire == n.wire && n'.server == Idle
    ensures MsgInv(DropMsg(ms, Some(n.server.m), AtServer), jobs, n')
  {
  }

  // ---- Contexts ----

  lemma CtxStays(n: Net, jobs: Jobs, j: JobId, job: Job)
    requires CtxInv(n, jobs) && (if j in jobs then jobs[j].ctx else None) == job.ctx
    ensures CtxInv(n, jobs[j := job])
  {
  }

  lemma CtxOpens(n: Net, jobs: Jobs, j: JobId, job: Job, c: CtxId)
    requires CtxInv(n, jobs) && j in jobs && jobs[j].ctx == None && job.ctx == Some(c) && c !in n.used
    ensures CtxInv(OpenCtxFor(n, c, j), jobs[j := job])
  {
  }

  lemma CtxAsks(n: Net, jobs: Jobs, j: JobId, job: Job, n': Net, c: CtxId)
    requires CtxInv(n, jobs) && j in jobs && jobs[j].ctx == job.ctx == Some(c)
    requires n'.used == n.used && n'.open == n.open
    requires n'.asked.Keys == n.asked.Keys + {c} && c in n'.wire && n'.wire == n.wire[c := n'.wire[c]]
    ensures CtxInv(n', jobs[j := job])
  {
  }

  lemma CtxForgets(n: Net, jobs: Jobs, j: JobId, job: Job, n': Net)
    requires CtxInv(n, jobs) && j in jobs && jobs[j].ctx == job.ctx
    requires n'.used == n.used && n'.open == n.open && n'.asked == n.asked
    requires forall c :: c in n'.wire ==> c in n.wire && n'.wire[c] == n.wire[c]
    ensures CtxInv(n', jobs[j := job])
  {
  }

  lemma CtxServes(n: Net, jobs: Jobs, n': Net)
    requires CtxInv(n, jobs)
    requires n'.used == n.used && n'.open == n.open && n'.asked == n.asked
    requires forall c :: c in n'.wire ==> (c in n.wire && n'.wire[c] == n.wire[c]) || (c in n.open && c in n.asked)
    ensures CtxInv(n', jobs)
  {
  }

  lemma CtxCloses(n: Net, jobs: Jobs, j: JobId, job: Job)
    requires CtxInv(n, jobs) && j in jobs && job.ctx == None
    ensures CtxInv(CloseCtx(n, jobs[j].ctx), jobs[j := job])
  {
  }

  lemma NetAsks(n: Net, ms: Msgs, m: MsgId, c: CtxId, n': Net, ms': Msgs)
    requires NetInv(n, ms) && c !in n.asked && m in ms.heap && |ms.heap[m].body| <= MAX_BODY
    requires n' == n.(asked := n.asked[c := ms.heap[m].body], wire := n.wire[c := Request(m)])
    requires forall k :: k in ms.heap ==> k in ms'.heap && ms'.heap[k].body == ms.heap[k].body
    ensures NetInv(n', ms')
  {
  }

  lemma NetSame(n: Net, ms: Msgs, n': Net, ms': Msgs)
    requires NetInv(n, ms) && n'.asked == n.asked && n'.wire == n.wire && n'.server == n.server
    requires forall k :: k in ms.heap ==> k in ms'.heap && ms'.heap[k].body == ms.heap[k].body
    ensures NetInv(n', ms')
  {
  }

  lemma NetLoads(ms: Msgs, jobs: Jobs, n: Net, j: JobId, m: MsgId, body: Bytes)
    requires NetInv(n, ms) && MsgInv(ms, jobs, n) && Owned(ms, m, JobMsg(j))
    ensures NetInv(n, PutMsg(ms, m, Cell(body, JobSlot(j))))
  {
  }

  lemma NetCloses(ms: Msgs, jobs: Jobs, n: Net, c: Option<CtxId>)
    requires MsgInv(ms, jobs, n) && NetInv(n, ms)
    ensures NetInv(CloseCtx(n, c), DropCtx(ms, n, c))
  {
  }

  lemma NetDrops(ms: Msgs, jobs: Jobs, n: Net, j: JobId, m: Option<MsgId>)
    requires MsgInv(ms, jobs, n) && NetInv(n, ms)
    ensures NetInv(n, DropMsg(ms, m, JobMsg(j)))
  {
  }

  lemma NetDelivers(ms: Msgs, n: Net, c: CtxId, j: JobId)
    requires NetInv(n, ms) && c in n.wire
    ensures NetInv(n.(wire := n.wire - {c}), MoveMsg(ms, n.wire[c].m, Socket(c), JobSlot(j)))
  {
  }

  lemma NetServes(ms: Msgs, n: Net, c: CtxId, n': Net)
    requires NetInv(n, ms) && c in n.wire && c in n.asked && n.wire[c].Request?
    requires n' == n.(wire := n.wire - {c}, server := Got(c, n.wire[c].m))
    ensures NetInv(n', MoveMsg(ms, n.wire[c].m, Socket(c), AtServer))
  {
  }

  /** The server turns the body of the request it took, and of no other message. */
  lemma NetTurns(ms: Msgs, jobs: Jobs, n: Net, n': Net)
    requires NetInv(n, ms) && MsgInv(ms, jobs, n) && n.server.Got?
    requires n' == n.(server := Turned(n.server.c, n.server.m))
    ensures NetInv(n', PutMsg(ms, n.server.m, Cell(Rot13.Loop(ms.heap[n.server.m].body), AtServer)))
  {
    var body := ms.heap[n.server.m].body;
    assert Rot13.Loop(body) == Rot13.Rot13(body);
  }

  lemma NetReturns(ms: Msgs, n: Net, n': Net)
    requires NetInv(n, ms) && n.server.Turned?
    requires n' == n.(wire := n.wire[n.server.c := Answer(n.server.m)], server := Idle)
    ensures NetInv(n', MoveMsg(ms, n.server.m, AtServer, Socket(n.server.c)))
  {
  }

  lemma NetOrphans(ms: Msgs, jobs: Jobs, n: Net)
    requires NetInv(n, ms) && MsgInv(ms, jobs, n) && n.server.Turned?
    ensures NetInv(n.(server := Idle), DropMsg(ms, Some(n.server.m), AtServer))
  {
  }

  lemma NetLapses(ms: Msgs, jobs: Jobs, n: Net, c: CtxId)
    requires NetInv(n, ms) && MsgInv(ms, jobs, n) && c in n.wire
    ensures NetInv(n.(wire := n.wire - {c}), DropMsg(ms, Some(n.wire[c].m), Socket(c)))
  {
  }

  // ---- What is known of a job by whoever holds it ----

  predicate SameBody(ms: Msgs, ms': Msgs, m: MsgId) {
    m in ms.heap ==> m in ms'.heap && ms'.heap[m].body == ms.heap[m].body
  }

  /** Nothing that is known of job `j` is affected. */
  predicate Untouched(s: State, s': State, j: JobId)
    requires j in s.pool.jobs
  {
    var job := s.pool.jobs[j];
    && j in s'.pool.jobs && s'.pool.jobs[j] == job
    && (j in s.pool.ops ==> j in s'.pool.ops && s'.pool.ops[j] == s.pool.ops[j])
    && (job.msg.Some? ==> SameBody(s.msgs, s'.msgs, job.msg.value))
    && (job.slot.Holds? ==>
          && SameBody(s.msgs, s'.msgs, job.slot.m)
          && (job.slot.m in s.msgs.failed <==> job.slot.m in s'.msgs.failed))
    && (job.httpAio.Some? && job.httpAio.value in s.http.accepted ==>
          && job.httpAio.value in s'.http.accepted
          && s'.http.accepted[job.httpAio.value] == s.http.accepted[job.httpAio.value])
    && (job.ctx.Some? ==>
          && (job.ctx.value in s.net.asked <==> job.ctx.value in s'.net.asked)
          && (job.ctx.value in s.net.asked ==> s.net.asked[job.ctx.value] == s'.net.asked[job.ctx.value])
          && (Pending(s.net, job.ctx.value) ==> Pending(s'.net, job.ctx.value)))
  }

  lemma StaysJobReady(s: State, s': State, j: JobId, pc: Thread)
    requires j in s.pool.jobs && JobReady(s, pc, s.pool.jobs[j]) && Untouched(s, s', j)
    ensures JobReady(s', pc, s.pool.jobs[j])
  {
  }

  lemma StaysOpReady(s: State, s': State, j: JobId)
    requires j in s.pool.jobs && j in s.pool.ops && OpReady(s, s.pool.ops[j], s.pool.jobs[j]) && Untouched(s, s', j)
    ensures OpReady(s', s.pool.ops[j], s.pool.jobs[j])
  {
  }

  lemma StaysReady(s: State, s': State, j: JobId, h: Holder)
    requires Ready(s, j, h) && Untouched(s, s', j)
    requires h.ByThread? ==> h.t in s'.threads && s'.threads[h.t] == s.threads[h.t]
    ensures Ready(s', j, h)
  {
    match h
    case OnFreelist =>
    case InFlight => StaysOpReady(s, s', j);
    case ByThread(t) => StaysJobReady(s, s', j, s.threads[t]);
  }

  /** A step on behalf of the jobs `js`: other jobs, the threads holding them and what they own stay. */
  ghost predicate LocalStep(s: State, s': State, js: set<JobId>) {
    && (forall k :: k in s'.pool.holder && k !in js ==> k in s.pool.holder && s'.pool.holder[k] == s.pool.holder[k])
    && (forall k :: k in s.pool.jobs && k !in js ==> k in s'.pool.jobs && s'.pool.jobs[k] == s.pool.jobs[k])
    && (forall k :: k in s.pool.ops && k !in js ==> k in s'.pool.ops && s'.pool.ops[k] == s.pool.ops[k])
    && (forall u :: u in s.threads && JobOf(s.threads[u]).Some? && JobOf(s.threads[u]).value !in js ==>
                      u in s'.threads && s'.threads[u] == s.threads[u])
    && (forall a :: a in s.http.accepted ==> a in s'.http.accepted && s'.http.accepted[a] == s.http.accepted[a])
    && (forall m :: m in s.msgs.heap && OfOtherJob(s.msgs.heap[m].owner, js) ==>
                      && m in s'.msgs.heap && s'.msgs.heap[m].body == s.msgs.heap[m].body
                      && (m in s.msgs.failed <==> m in s'.msgs.failed))
    && (forall c :: c in s.net.open && s.net.open[c] !in js ==>
                      && (c in s.net.asked <==> c in s'.net.asked)
                      && (c in s.net.asked ==> s'.net.asked[c] == s.net.asked[c])
                      && (Pending(s.net, c) ==> Pending(s'.net, c)))
  }

  predicate OfOtherJob(p: Place, js: set<JobId>) {
    (p.JobMsg? || p.JobSlot?) && p.j !in js
  }

  lemma OthersUntouched(s: State, s': State, js: set<JobId>, k: JobId)
    requires MsgInv(s.msgs, s.pool.jobs, s.net) && CtxInv(s.net, s.pool.jobs) && LocalStep(s, s', js)
    requires k in s.pool.jobs && k !in js
    ensures Untouched(s, s', k)
  {
    var job := s.pool.jobs[k];
    if job.httpAio.Some? {
      var a: AioId := job.httpAio.value;
    }
    if job.ctx.Some? {
      var c: CtxId := job.ctx.value;
      assert c in s.net.open;
    }
  }

  /** After a local step only the jobs it worked on need a new argument. */
  lemma PhaseStep(s: State, s': State, js: set<JobId>)
    requires PhaseInv(s) && HolderInv(s.pool, s.threads)
    requires MsgInv(s.msgs, s.pool.jobs, s.net) && CtxInv(s.net, s.pool.jobs)
    requires LocalStep(s, s', js)
    requires forall j :: j in js && j in s'.pool.holder ==> Ready(s', j, s'.pool.holder[j])
    ensures PhaseInv(s')
  {
    forall k | k in s'.pool.holder && k !in js ensures Ready(s', k, s'.pool.holder[k]) {
      OthersUntouched(s, s', js, k);
      StaysReady(s, s', k, s.pool.holder[k]);
    }
  }
}
