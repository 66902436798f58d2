/**
 The in-place methods of RestJobs and the sections of the state machine: run without interruption, the
 sections of a function of the server do to its job, the freelist, the messages and the answers what its
 method does.
 */
module RestSequential {
  import opened Bytes
  import opened RestProxy
  import opened RestInvariant
  import opened RestSafety
  import opened RestJobs

  /** Thread `t` holds `j` and is about to run `pc`. */
  predicate Poised(s: State, t: ThreadId, j: JobId, pc: Thread) {
    && !s.exited && t in s.threads && s.threads[t] == pc && JobOf(pc) == Some(j)
    && j in s.pool.jobs && j in s.pool.holder && s.pool.holder[j] == ByThread(t)
  }

  /** The identities of what the library would allocate next. */
  datatype Ids = Ids(j: JobId, c: CtxId, m: MsgId)

  function OutcomeOf(pc: Thread, o: Outcomes): bool {
    match pc
    case Alloc(_) => o.enough
    case MakeRes(_, _) => o.makes
    case OpenCtx(_, _) => o.opens
    case NewMsg(_, _) => o.allocates
    case Reply(_) => o.copies
    case Respond(_) => o.answers
    case FatalFinish(_, _, _) => o.answers
    case Clear(_, _) => o.closes
    case _ => true
  }

  function IdOf(pc: Thread, n: Ids): int {
    match pc
    case Alloc(_) => n.j
    case OpenCtx(_, _) => n.c
    case _ => n.m
  }

  function Next(s: State, t: ThreadId, o: Outcomes, n: Ids): State {
    if t in s.threads then Step(s, Run(t, OutcomeOf(s.threads[t], o), IdOf(s.threads[t], n))) else s
  }

  /** At most `k` sections of `t`, until it has nothing left to do but release its pointer. */
  function Alone(s: State, t: ThreadId, o: Outcomes, n: Ids, k: nat): State
    decreases k
  {
    if k == 0 || s.exited || t !in s.threads || s.threads[t].Releasing? then s
    else Alone(Next(s, t, o, n), t, o, n, k - 1)
  }

  lemma Rested(s: State, t: ThreadId, o: Outcomes, n: Ids, k: nat)
    requires t !in s.threads || s.threads[t].Releasing?
    ensures Alone(s, t, o, n, k) == s
  {
  }

  // ---- Messages ----

  /** `l` has the live messages with their bodies and the replies kept for contexts. */
  ghost predicate Mirrors(l: Mail, ms: Msgs, n: Net) {
    && (forall m :: m in l.heap <==> m in ms.heap)
    && (forall m :: m in l.heap ==> l.heap[m] == ms.heap[m].body)
    && (forall c :: c in l.kept <==> c in n.wire && n.wire[c].Answer?)
    && (forall c :: c in l.kept ==> l.kept[c] == n.wire[c].m)
  }

  predicate SameMail(s: State, s': State) { s'.msgs == s.msgs && s'.net.wire == s.net.wire }

  lemma MirrorsFreed(l: Mail, ms: Msgs, n: Net, m: Option<MsgId>, p: Place)
    requires Mirrors(l, ms, n) && (m.Some? ==> Owned(ms, m.value, p))
    ensures Mirrors(FreeIn(l, m), DropMsg(ms, m, p), n)
  {
  }

  lemma MirrorsClosed(l: Mail, ms: Msgs, n: Net, c: Option<CtxId>)
    requires Mirrors(l, ms, n) && (Kept(n, c).Some? ==> Owned(ms, Kept(n, c).value, Socket(c.value)))
    ensures Mirrors(CloseIn(l, c), DropCtx(ms, n, c), CloseCtx(n, c))
  {
  }

  /** What recycling frees is the job's to free. */
  predicate Frees(s: State, j: JobId) {
    && j in s.pool.jobs
    && (s.pool.jobs[j].msg.Some? ==> Owned(s.msgs, s.pool.jobs[j].msg.value, JobMsg(j)))
    && (Kept(s.net, s.pool.jobs[j].ctx).Some? ==>
          Owned(s.msgs, Kept(s.net, s.pool.jobs[j].ctx).value, Socket(s.pool.jobs[j].ctx.value)))
  }

  lemma ClearMirrors(l: Mail, s: State, j: JobId, o: Outcomes)
    requires Mirrors(l, s.msgs, s.net) && Frees(s, j)
    requires RecycleResult(s.pool.jobs[j], l, o).end == Recycled
    ensures var job := s.pool.jobs[j];
            Mirrors(RecycleResult(job, l, o).mail, DropCtx(DropMsg(s.msgs, job.msg, JobMsg(j)), s.net, job.ctx),
                    CloseCtx(s.net, job.ctx))
  {
    hide Mirrors;
    var job := s.pool.jobs[j];
    MirrorsFreed(l, s.msgs, s.net, job.msg, JobMsg(j));
    MirrorsClosed(FreeIn(l, job.msg), DropMsg(s.msgs, job.msg, JobMsg(j)), s.net, job.ctx);
  }

  /** The state after a function of the server on job `j` with result `r`; `a` is the aio it answers. */
  ghost predicate Matches(s: State, s': State, j: JobId, a: AioId, r: Result) {
    if r.end == Exits then s'.exited
    else
      && !s'.exited && s'.pool.jobs == s.pool.jobs[j := r.job]
      && s'.pool.free == (if r.end == Recycled then [j] + s.pool.free else s.pool.free)
      && s'.http.finished == (if r.answer == None then s.http.finished else s.http.finished[a := r.answer.value])
      && Mirrors(r.mail, s'.msgs, s'.net)
      && (r.end == Sends ==> j in s'.pool.ops && s'.pool.ops[j] == Op(SendReq, false))
      && (r.end == Receives ==> j in s'.pool.ops && s'.pool.ops[j] == Op(RecvRep, false))
  }

  // ---- Recycling ----

  lemma ClearStep(s: State, t: ThreadId, j: JobId, refuse: Option<AioId>, o: Outcomes, n: Ids)
    requires Poised(s, t, j, Clear(j, refuse))
    ensures var s', job := Next(s, t, o, n), s.pool.jobs[j];
            if job.ctx.Some? && !o.closes then s'.exited
            else
              && Poised(s', t, j, Push(j, refuse)) && s'.pool.free == s.pool.free && s'.http == s.http
              && s'.pool.jobs == s.pool.jobs[j := job.(httpRes := None, msg := None, ctx := None)]
              && s'.msgs == DropCtx(DropMsg(s.msgs, job.msg, JobMsg(j)), s.net, job.ctx)
              && s'.net == CloseCtx(s.net, job.ctx)
  {
    hide DropMsg, DropCtx, CloseCtx;
  }

  lemma PushStep(s: State, t: ThreadId, j: JobId, refuse: Option<AioId>, o: Outcomes, n: Ids)
    requires Poised(s, t, j, Push(j, refuse))
    ensures var s' := Next(s, t, o, n);
            && !s'.exited && s'.pool.free == [j] + s.pool.free && s'.pool.jobs == s.pool.jobs && s'.http == s.http
            && s'.msgs == s.msgs && s'.net == s.net
            && if refuse == None then t !in s'.threads else t in s'.threads && s'.threads[t] == Refuse(refuse.value)
  {
  }

  lemma RefuseStep(s: State, t: ThreadId, a: AioId, o: Outcomes, n: Ids)
    requires !s.exited && t in s.threads && s.threads[t] == Refuse(a) && a in s.http.duty && s.http.duty[a] == Local(t)
    ensures var s' := Next(s, t, o, n);
            && !s'.exited && t !in s'.threads && s'.pool == s.pool && s'.msgs == s.msgs && s'.net == s.net
            && s'.http.finished == s.http.finished[a := Refused]
  {
  }

  function RefusedResult(r: Result, refuse: Option<AioId>): Result {
    if r.end == Exits || refuse == None then r else r.(answer := Some(Refused))
  }

  /** `RestRecycleJob`, and the refusal that follows it in a handler. */
  lemma RecycleAlone(s: State, t: ThreadId, j: JobId, refuse: Option<AioId>, a: AioId, l: Mail, o: Outcomes,
                     n: Ids, k: nat)
    requires Poised(s, t, j, Clear(j, refuse)) && k >= 3 && Mirrors(l, s.msgs, s.net) && Frees(s, j)
    requires refuse.Some? ==> refuse == Some(a) && a in s.http.duty && s.http.duty[a] == Local(t)
    ensures Matches(s, Alone(s, t, o, n, k), j, a, RefusedResult(RecycleResult(s.pool.jobs[j], l, o), refuse))
  {
    hide Next, Mirrors, Frees, DropMsg, DropCtx, CloseCtx;
    ClearStep(s, t, j, refuse, o, n);
    var s1 := Next(s, t, o, n);
    if !s1.exited && RecycleResult(s.pool.jobs[j], l, o).end == Recycled {
      ClearMirrors(l, s, j, o);
      PushStep(s1, t, j, refuse, o, n);
      var s2 := Next(s1, t, o, n);
      assert Alone(s, t, o, n, k) == Alone(s2, t, o, n, k - 2);
      if refuse.Some? {
        RefuseStep(s2, t, a, o, n);
        assert Alone(s2, t, o, n, k - 2) == Next(s2, t, o, n);
        hide Alone;
      }
    }
  }

  // ---- The error path ----

  predicate AnswersFor(s: State, j: JobId, a: AioId) {
    && j in s.pool.jobs && s.pool.jobs[j].httpAio == Some(a) && s.pool.jobs[j].httpRes.Some?
    && a in s.http.duty && s.http.duty[a] == Parked(j)
  }

  lemma FatalStep(s: State, t: ThreadId, j: JobId, a: AioId, o: Outcomes, n: Ids)
    requires Poised(s, t, j, Fatal(j)) && AnswersFor(s, j, a)
    ensures var s' := Next(s, t, o, n);
            && Poised(s', t, j, FatalFinish(a, j, true)) && s'.pool.free == s.pool.free
            && s'.pool.jobs == s.pool.jobs[j := s.pool.jobs[j].(httpAio := None, httpRes := None)]
            && s'.http.finished == s.http.finished && a in s'.http.duty && s'.http.duty[a] == Local(t)
            && s'.msgs == s.msgs && s'.net == s.net
  {
  }

  lemma FatalFinishStep(s: State, t: ThreadId, j: JobId, a: AioId, o: Outcomes, n: Ids)
    requires Poised(s, t, j, FatalFinish(a, j, true)) && a in s.http.duty && s.http.duty[a] == Local(t)
    ensures var s' := Next(s, t, o, n);
            if !o.answers then s'.exited
            else
              && Poised(s', t, j, Clear(j, None)) && s'.pool == s.pool
              && s'.http.finished == s.http.finished[a := ServerError] && s'.msgs == s.msgs && s'.net == s.net
  {
  }

  /** `RestHttpFatal`. */
  lemma FatalAlone(s: State, t: ThreadId, j: JobId, a: AioId, l: Mail, o: Outcomes, n: Ids, k: nat)
    requires Poised(s, t, j, Fatal(j)) && AnswersFor(s, j, a) && k >= 5 && Mirrors(l, s.msgs, s.net) && Frees(s, j)
    ensures Matches(s, Alone(s, t, o, n, k), j, a, FatalResult(s.pool.jobs[j], l, o))
  {
    hide Next, Mirrors;
    FatalStep(s, t, j, a, o, n);
    var s1 := Next(s, t, o, n);
    FatalFinishStep(s1, t, j, a, o, n);
    var s2 := Next(s1, t, o, n);
    assert Alone(s, t, o, n, k) == Alone(s2, t, o, n, k - 2);
    if o.answers {
      RecycleAlone(s2, t, j, None, a, l, o, n, k - 2);
      var job' := RecycleResult(s2.pool.jobs[j], l, o).job;
      assert s.pool.jobs[j := s2.pool.jobs[j]][j := job'] == s.pool.jobs[j := job'];
    }
  }

  // ---- The callback ----

  predicate HoldsReply(s: State, j: JobId, m: MsgId) {
    && j in s.pool.jobs && s.pool.jobs[j].succeeded && s.pool.jobs[j].state == RecvRep
    && s.pool.jobs[j].msg == None && s.pool.jobs[j].slot == Holds(m)
    && m in s.msgs.heap && s.msgs.heap[m].owner == JobSlot(j)
  }

  lemma TurnStep(s: State, t: ThreadId, j: JobId, o: Outcomes, n: Ids)
    requires Poised(s, t, j, Dispatch(j)) && s.pool.jobs[j].succeeded && s.pool.jobs[j].state == SendReq
    ensures var s' := Next(s, t, o, n);
            && Poised(s', t, j, StartRecv(j)) && s'.pool.free == s.pool.free && s'.http == s.http
            && s'.pool.ops == s.pool.ops && s'.msgs == s.msgs && s'.net == s.net
            && s'.pool.jobs == s.pool.jobs[j := s.pool.jobs[j].(slot := Empty, state := RecvRep)]
  {
  }

  lemma StartStep(s: State, t: ThreadId, j: JobId, kind: JobState, o: Outcomes, n: Ids)
    requires Poised(s, t, j, if kind == SendReq then StartSend(j) else StartRecv(j))
    requires s.pool.jobs[j].ctx.Some? && j !in s.pool.ops
    ensures var s' := Next(s, t, o, n);
            && !s'.exited && t in s'.threads && s'.threads[t] == Releasing
            && s'.pool.free == s.pool.free && s'.pool.jobs == s.pool.jobs && s'.http == s.http
            && s'.msgs == s.msgs && s'.net == s.net && j in s'.pool.ops && s'.pool.ops[j] == Op(kind, false)
  {
  }

  lemma DispatchStep(s: State, t: ThreadId, j: JobId, m: MsgId, o: Outcomes, n: Ids)
    requires Poised(s, t, j, Dispatch(j)) && HoldsReply(s, j, m)
    ensures var s' := Next(s, t, o, n);
            && Poised(s', t, j, Reply(j)) && s'.pool.free == s.pool.free && s'.http == s.http
            && s'.pool.jobs == s.pool.jobs[j := s.pool.jobs[j].(msg := Some(m), slot := Empty)]
            && s'.msgs == MoveMsg(s.msgs, m, JobSlot(j), JobMsg(j)) && s'.net == s.net
  {
  }

  lemma ReplyStep(s: State, t: ThreadId, j: JobId, m: MsgId, o: Outcomes, n: Ids)
    requires Poised(s, t, j, Reply(j)) && s.pool.jobs[j].msg == Some(m) && m in s.msgs.heap
    requires s.pool.jobs[j].httpRes.Some?
    ensures var s' := Next(s, t, o, n);
            && Poised(s', t, j, if o.copies then Respond(j) else Fatal(j)) && s'.http == s.http
            && s'.msgs == s.msgs && s'.net == s.net
            && s'.pool == if !o.copies then s.pool
                          else SetJob(s.pool, j, s.pool.jobs[j].(httpRes := Some(s.msgs.heap[m].body)))
  {
  }

  lemma RespondStep(s: State, t: ThreadId, j: JobId, a: AioId, o: Outcomes, n: Ids)
    requires Poised(s, t, j, Respond(j)) && AnswersFor(s, j, a)
    ensures var s', job := Next(s, t, o, n), s.pool.jobs[j];
            if !o.answers then s'.exited
            else
              && Poised(s', t, j, Clear(j, None))
              && s'.pool == SetJob(s.pool, j, job.(httpAio := None, httpRes := None))
              && s'.http.finished == s.http.finished[a := Page(job.httpRes.value)]
              && s'.msgs == s.msgs && s'.net == s.net
  {
  }

  lemma Settle<K, V>(m: map<K, V>, k: K, u: V, v: V)
    ensures m[k := u][k := v] == m[k := v]
  {
  }

  /** Answering with the page that is in the job, and recycling. */
  lemma RespondAlone(s: State, t: ThreadId, j: JobId, a: AioId, page: Bytes, l: Mail, o: Outcomes, n: Ids, k: nat)
    requires Poised(s, t, j, Respond(j)) && AnswersFor(s, j, a) && s.pool.jobs[j].httpRes == Some(page) && k >= 5
    requires Mirrors(l, s.msgs, s.net) && Frees(s, j)
    ensures var cleared := s.pool.jobs[j].(httpAio := None, httpRes := None);
            Matches(s, Alone(s, t, o, n, k), j, a, if !o.answers then Result(s.pool.jobs[j], l, None, Exits)
                                                   else RecycleResult(cleared, l, o).(answer := Some(Page(page))))
  {
    hide Next, RecycleResult, Mirrors;
    RespondStep(s, t, j, a, o, n);
    var s1 := Next(s, t, o, n);
    if o.answers {
      hide Matches;
      RecycleAlone(s1, t, j, None, a, l, o, n, k - 1);
      Answering(s, s1, Alone(s1, t, o, n, k - 1), j, a, s1.pool.jobs[j], Page(page), l, o);
    }
  }

  /** The callback from the point where the reply is in the job: `RestReply`. */
  lemma ReplyAlone(s: State, t: ThreadId, j: JobId, a: AioId, m: MsgId, job: Job, l: Mail, o: Outcomes, n: Ids,
                   k: nat)
    requires Poised(s, t, j, Reply(j)) && AnswersFor(s, j, a) && m in s.msgs.heap && k >= 6
    requires Mirrors(l, s.msgs, s.net) && Frees(s, j)
    requires Delivered(job, l) && job.succeeded && job.state == RecvRep && job.msg == None && job.slot == Holds(m)
    requires s.pool.jobs[j] == job.(msg := Some(m), slot := Empty)
    ensures Matches(s, Alone(s, t, o, n, k), j, a, CallbackResult(job, l, o))
  {
    assert l.heap[m] == s.msgs.heap[m].body;
    hide Next, Matches, RecycleResult, FatalResult, Mirrors;
    ReplyStep(s, t, j, m, o, n);
    var s1 := Next(s, t, o, n);
    assert Alone(s, t, o, n, k) == Alone(s1, t, o, n, k - 1);
    hide Alone;
    var s' := Alone(s1, t, o, n, k - 1);
    if !o.copies {
      FatalAlone(s1, t, j, a, l, o, n, k - 1);
      SameStart(s1, s, s', j, a, FatalResult(s.pool.jobs[j], l, o));
    } else {
      RespondAlone(s1, t, j, a, l.heap[m], l, o, n, k - 1);
      if !o.answers {
        ExitedAnyway(s1, s, s', j, a, Result(s1.pool.jobs[j], l, None, Exits), CallbackResult(job, l, o));
      } else {
        SameStart(s1, s, s', j, a, CallbackResult(job, l, o));
      }
    }
  }

  lemma ExitedAnyway(s1: State, s: State, s': State, j: JobId, a: AioId, r1: Result, r: Result)
    requires Matches(s1, s', j, a, r1) && r1.end == Exits && r.end == Exits
    ensures Matches(s, s', j, a, r)
  {
  }

  /** What a function does from `s1` it does from a state that differs in the job only. */
  lemma SameStart(s1: State, s: State, s': State, j: JobId, a: AioId, r: Result)
    requires Matches(s1, s', j, a, r) && s1.pool.free == s.pool.free && s1.http.finished == s.http.finished
    requires j in s1.pool.jobs && s1.pool.jobs == s.pool.jobs[j := s1.pool.jobs[j]]
    ensures Matches(s, s', j, a, r)
  {
    Settle(s.pool.jobs, j, s1.pool.jobs[j], r.job);
  }

  /** Answering the aio and then recycling the job. */
  lemma Answering(s: State, s1: State, s': State, j: JobId, a: AioId, job: Job, page: Response, l: Mail,
                  o: Outcomes)
    requires Matches(s1, s', j, a, RecycleResult(job, l, o)) && s1.pool.free == s.pool.free
    requires j in s1.pool.jobs && s1.pool.jobs == s.pool.jobs[j := s1.pool.jobs[j]]
    requires s1.http.finished == s.http.finished[a := page]
    ensures Matches(s, s', j, a, RecycleResult(job, l, o).(answer := Some(page)))
  {
    Settle(s.pool.jobs, j, s1.pool.jobs[j], RecycleResult(job, l, o).job);
  }

  lemma MovedMirrors(l: Mail, ms: Msgs, n: Net, m: MsgId, from: Place, to: Place)
    requires Mirrors(l, ms, n)
    ensures Mirrors(l, MoveMsg(ms, m, from, to), n)
  {
  }

  lemma MovedFrees(s: State, s': State, j: JobId, m: MsgId)
    requires Frees(s, j) && HoldsReply(s, j, m) && s'.msgs == MoveMsg(s.msgs, m, JobSlot(j), JobMsg(j))
    requires s'.net == s.net
    requires s'.pool.jobs == s.pool.jobs[j := s.pool.jobs[j].(msg := Some(m), slot := Empty)]
    ensures Frees(s', j)
  {
  }

  /** What a callback finds in its job. */
  predicate Called(s: State, t: ThreadId, j: JobId, a: AioId) {
    && Poised(s, t, j, Dispatch(j)) && AnswersFor(s, j, a) && j !in s.pool.ops && s.pool.jobs[j].ctx.Some?
    && Frees(s, j)
    && (s.pool.jobs[j].succeeded && s.pool.jobs[j].state == RecvRep ==>
          s.pool.jobs[j].slot.Holds? && HoldsReply(s, j, s.pool.jobs[j].slot.m))
  }

  lemma TurnAlone(s: State, t: ThreadId, j: JobId, a: AioId, l: Mail, o: Outcomes, n: Ids, k: nat)
    requires Poised(s, t, j, Dispatch(j)) && j !in s.pool.ops && s.pool.jobs[j].ctx.Some?
    requires s.pool.jobs[j].succeeded && s.pool.jobs[j].state == SendReq && Mirrors(l, s.msgs, s.net) && k >= 2
    ensures Matches(s, Alone(s, t, o, n, k), j, a, CallbackResult(s.pool.jobs[j], l, o))
  {
    hide Next, Mirrors;
    TurnStep(s, t, j, o, n);
    var s1 := Next(s, t, o, n);
    StartStep(s1, t, j, RecvRep, o, n);
    Rested(Next(s1, t, o, n), t, o, n, k - 2);
    assert Alone(s1, t, o, n, k - 1) == Next(s1, t, o, n);
  }

  lemma CalledAlone(s: State, t: ThreadId, j: JobId, a: AioId, l: Mail, o: Outcomes, n: Ids, k: nat)
    requires Called(s, t, j, a) && Mirrors(l, s.msgs, s.net) && k >= 7
    ensures Delivered(s.pool.jobs[j], l)
    ensures Matches(s, Alone(s, t, o, n, k), j, a, CallbackResult(s.pool.jobs[j], l, o))
  {
    assert Delivered(s.pool.jobs[j], l);
    hide Next, FatalResult, RecycleResult, Mirrors;
    var job := s.pool.jobs[j];
    var s1 := Next(s, t, o, n);
    assert Alone(s, t, o, n, k) == Alone(s1, t, o, n, k - 1);
    hide Alone, Matches;
    if !job.succeeded {
      GiveUpStep(s, t, j, o, n);
      FatalAlone(s1, t, j, a, l, o, n, k - 1);
      assert s.pool.jobs[j := job] == s.pool.jobs;
      SameStart(s1, s, Alone(s1, t, o, n, k - 1), j, a, FatalResult(job, l, o));
    } else if job.state == SendReq {
      TurnAlone(s, t, j, a, l, o, n, k);
    } else {
      DispatchStep(s, t, j, job.slot.m, o, n);
      MovedMirrors(l, s.msgs, s.net, job.slot.m, JobSlot(j), JobMsg(j));
      MovedFrees(s, s1, j, job.slot.m);
      ReplyAlone(s1, t, j, a, job.slot.m, job, l, o, n, k - 1);
      SameStart(s1, s, Alone(s1, t, o, n, k - 1), j, a, CallbackResult(job, l, o));
    }
  }

  lemma InvFrees(s: State, j: JobId)
    requires MsgInv(s.msgs, s.pool.jobs, s.net) && j in s.pool.jobs
    ensures Frees(s, j)
  {
  }

  lemma InvCalled(s: State, t: ThreadId, j: JobId)
    requires Inv(s) && !s.exited && t in s.threads && s.threads[t] == Dispatch(j)
    ensures j in s.pool.jobs && s.pool.jobs[j].httpAio.Some? && Called(s, t, j, s.pool.jobs[j].httpAio.value)
  {
    hide HolderInv, DutyInv, MsgInv, CtxInv, NetInv, PhaseInv, PagesRight;
    HeldReady(s, t, j);
    HeldNotStarted(s, t, j);
    HeldAio(s, t, j);
    HeldMsg(s, j);
    InvFrees(s, j);
  }

  /** `RestJobCb`: in every state of the invariant, the callback of a completed operation, whatever its outcome. */
  lemma CallbackAlone(s: State, t: ThreadId, j: JobId, l: Mail, o: Outcomes, n: Ids, k: nat)
    requires Inv(s) && !s.exited && t in s.threads && s.threads[t] == Dispatch(j)
    requires Mirrors(l, s.msgs, s.net) && k >= 7
    ensures j in s.pool.jobs && s.pool.jobs[j].httpAio.Some? && Delivered(s.pool.jobs[j], l)
    ensures Matches(s, Alone(s, t, o, n, k), j, s.pool.jobs[j].httpAio.value, CallbackResult(s.pool.jobs[j], l, o))
  {
    hide Inv, Called, Mirrors, Matches, Alone, CallbackResult;
    InvCalled(s, t, j);
    CalledAlone(s, t, j, s.pool.jobs[j].httpAio.value, l, o, n, k);
  }

  lemma GiveUpStep(s: State, t: ThreadId, j: JobId, o: Outcomes, n: Ids)
    requires Poised(s, t, j, Dispatch(j)) && !s.pool.jobs[j].succeeded
    ensures var s' := Next(s, t, o, n);
            && Poised(s', t, j, Fatal(j)) && s'.pool == s.pool && s'.http == s.http
            && s'.msgs == s.msgs && s'.net == s.net
  {
  }

  // ---- The handler ----

  lemma AttachStep(s: State, t: ThreadId, j: JobId, a: AioId, o: Outcomes, n: Ids)
    requires Poised(s, t, j, Attach(a, j)) && a in s.http.accepted && a in s.http.duty && s.http.duty[a] == Local(t)
    ensures var s' := Next(s, t, o, n);
            && Poised(s', t, j, NewMsg(j, s.http.accepted[a]))
            && s'.pool == SetJob(s.pool, j, s.pool.jobs[j].(httpAio := Some(a)))
            && s'.msgs == s.msgs && s'.net == s.net && s'.http.finished == s.http.finished
            && a in s'.http.duty && s'.http.duty[a] == Parked(j)
  {
  }

  lemma NewMsgStep(s: State, t: ThreadId, j: JobId, data: Bytes, o: Outcomes, n: Ids)
    requires Poised(s, t, j, NewMsg(j, data)) && s.pool.jobs[j].msg == None && n.m !in s.msgs.heap
    ensures var s' := Next(s, t, o, n);
            && Poised(s', t, j, if o.allocates then Load(j, data) else Fatal(j)) && s'.http == s.http
            && s'.net == s.net && (!o.allocates ==> s'.pool == s.pool && s'.msgs == s.msgs)
            && (o.allocates ==> s'.pool == SetJob(s.pool, j, s.pool.jobs[j].(msg := Some(n.m)))
                                && s'.msgs == PutMsg(s.msgs, n.m, Cell(seq(|data|, _ => 0), JobMsg(j))))
  {
  }

  lemma LoadStep(s: State, t: ThreadId, j: JobId, data: Bytes, o: Outcomes, n: Ids)
    requires Poised(s, t, j, Load(j, data)) && s.pool.jobs[j].msg == Some(n.m)
    requires n.m in s.msgs.heap && s.msgs.heap[n.m].owner == JobMsg(j)
    ensures var s' := Next(s, t, o, n);
            && Poised(s', t, j, StartSend(j)) && s'.http == s.http
            && s'.pool == SetJob(s.pool, j, s.pool.jobs[j].(msg := None, slot := Holds(n.m), state := SendReq))
            && s'.msgs == PutMsg(s.msgs, n.m, Cell(data, JobSlot(j))) && s'.net == s.net
  {
  }

  lemma PutMirrors(l: Mail, ms: Msgs, n: Net, m: MsgId, body: Bytes, p: Place, zeros: Bytes, q: Place)
    requires Mirrors(l, ms, n)
    ensures Mirrors(PutIn(l, m, body), PutMsg(PutMsg(ms, m, Cell(zeros, q)), m, Cell(body, p)), n)
  {
  }

  /** The handler once the job has a response and a context: `RestSubmit`. */
  lemma SubmitAlone(s: State, t: ThreadId, j: JobId, a: AioId, l: Mail, o: Outcomes, n: Ids, k: nat)
    requires Poised(s, t, j, Attach(a, j)) && Handles(s, t, a) && Mirrors(l, s.msgs, s.net) && Frees(s, j)
    requires s.pool.jobs[j].msg == None && s.pool.jobs[j].httpRes.Some? && s.pool.jobs[j].ctx.Some?
    requires j !in s.pool.ops && n.m !in s.msgs.heap && k >= 7
    ensures var r := SubmitResult(s.pool.jobs[j], l, a, s.http.accepted[a], n.m, o);
            Matches(s, Alone(s, t, o, n, k), j, a, r)
  {
    hide Next, Matches, FatalResult, Mirrors;
    AttachStep(s, t, j, a, o, n);
    var s1 := Next(s, t, o, n);
    NewMsgStep(s1, t, j, s.http.accepted[a], o, n);
    var s2 := Next(s1, t, o, n);
    assert Alone(s, t, o, n, k) == Alone(s2, t, o, n, k - 2);
    if !o.allocates {
      FatalAlone(s2, t, j, a, l, o, n, k - 2);
      SameStart(s2, s, Alone(s2, t, o, n, k - 2), j, a, FatalResult(s2.pool.jobs[j], l, o));
    } else {
      SubmitLoads(s, s2, t, j, a, s.http.accepted[a], l, o, n, k - 2);
    }
  }

  lemma SubmitLoads(s: State, s2: State, t: ThreadId, j: JobId, a: AioId, data: Bytes, l: Mail, o: Outcomes,
                    n: Ids, k: nat)
    requires Poised(s2, t, j, Load(j, data)) && j in s.pool.jobs
    requires s.pool.jobs[j].msg == None && s.pool.jobs[j].ctx.Some?
    requires s2.pool == SetJob(s.pool, j, s.pool.jobs[j].(httpAio := Some(a), msg := Some(n.m))) && j !in s.pool.ops
    requires s2.http.finished == s.http.finished && s2.net == s.net && Mirrors(l, s.msgs, s.net)
    requires s2.msgs == PutMsg(s.msgs, n.m, Cell(seq(|data|, _ => 0), JobMsg(j)))
    requires o.allocates && k >= 2
    ensures Matches(s, Alone(s2, t, o, n, k), j, a, SubmitResult(s.pool.jobs[j], l, a, data, n.m, o))
  {
    hide Next, Mirrors;
    LoadStep(s2, t, j, data, o, n);
    var s3 := Next(s2, t, o, n);
    StartStep(s3, t, j, SendReq, o, n);
    Rested(Next(s3, t, o, n), t, o, n, k - 2);
    assert Alone(s3, t, o, n, k - 1) == Next(s3, t, o, n);
    Settle(s.pool.jobs, j, s2.pool.jobs[j], s3.pool.jobs[j]);
    PutMirrors(l, s.msgs, s.net, n.m, data, JobSlot(j), seq(|data|, _ => 0), JobMsg(j));
  }

  lemma MakeResStep(s: State, t: ThreadId, j: JobId, a: AioId, o: Outcomes, n: Ids)
    requires Poised(s, t, j, MakeRes(a, j))
    ensures var s' := Next(s, t, o, n);
            && Poised(s', t, j, if o.makes then OpenCtx(a, j) else Clear(j, Some(a))) && s'.http == s.http
            && s'.msgs == s.msgs && s'.net == s.net
            && s'.pool == if o.makes then SetJob(s.pool, j, s.pool.jobs[j].(httpRes := Some([]))) else s.pool
  {
  }

  lemma OpenCtxStep(s: State, t: ThreadId, j: JobId, a: AioId, o: Outcomes, n: Ids)
    requires Poised(s, t, j, OpenCtx(a, j)) && s.pool.jobs[j].ctx == None && n.c !in s.net.used
    ensures var s' := Next(s, t, o, n);
            && Poised(s', t, j, if o.opens then Attach(a, j) else Clear(j, Some(a))) && s'.http == s.http
            && s'.msgs == s.msgs && s'.net.wire == s.net.wire
            && s'.pool == if o.opens then SetJob(s.pool, j, s.pool.jobs[j].(ctx := Some(n.c))) else s.pool
  {
  }

  /** Nothing of what the library is about to hand out is in use. */
  predicate New(s: State, n: Ids) { n.c !in s.net.used && n.m !in s.msgs.heap && n.j !in s.pool.jobs }

  predicate Handles(s: State, t: ThreadId, a: AioId) {
    a in s.http.accepted && a in s.http.duty && s.http.duty[a] == Local(t)
  }

  lemma WireMirrors(l: Mail, s: State, s': State)
    requires Mirrors(l, s.msgs, s.net) && SameMail(s, s')
    ensures Mirrors(l, s'.msgs, s'.net)
  {
  }

  /** The handler for a checked-out job: `RestServe`. */
  lemma ServeAlone(s: State, t: ThreadId, j: JobId, a: AioId, l: Mail, o: Outcomes, n: Ids, k: nat)
    requires Poised(s, t, j, MakeRes(a, j)) && Handles(s, t, a) && Blank(s.pool.jobs[j]) && Mirrors(l, s.msgs, s.net)
    requires j !in s.pool.ops && n.c !in s.net.used && n.c !in s.net.wire && n.m !in s.msgs.heap && k >= 9
    ensures var r := HandleResult(s.pool.jobs[j], l, a, s.http.accepted[a], n.c, n.m, o);
            Matches(s, Alone(s, t, o, n, k), j, a, r)
  {
    hide Next, Matches, SubmitResult, Mirrors;
    MakeResStep(s, t, j, a, o, n);
    var s1 := Next(s, t, o, n);
    if !o.makes {
      RecycleAlone(s1, t, j, Some(a), a, l, o, n, k - 1);
      SameStart(s1, s, Alone(s1, t, o, n, k - 1), j, a,
                RefusedResult(RecycleResult(s1.pool.jobs[j], l, o), Some(a)));
    } else {
      OpenCtxStep(s1, t, j, a, o, n);
      var s2 := Next(s1, t, o, n);
      WireMirrors(l, s, s2);
      assert Alone(s, t, o, n, k) == Alone(s2, t, o, n, k - 2);
      Settle(s.pool.jobs, j, s1.pool.jobs[j], s2.pool.jobs[j]);
      if !o.opens {
        RecycleAlone(s2, t, j, Some(a), a, l, o, n, k - 2);
        SameStart(s2, s, Alone(s2, t, o, n, k - 2), j, a,
                  RefusedResult(RecycleResult(s2.pool.jobs[j], l, o), Some(a)));
      } else {
        SubmitAlone(s2, t, j, a, l, o, n, k - 2);
        SameStart(s2, s, Alone(s2, t, o, n, k - 2), j, a,
                  SubmitResult(s2.pool.jobs[j], l, a, s.http.accepted[a], n.m, o));
      }
    }
  }

  lemma GetStep(s: State, t: ThreadId, a: AioId, o: Outcomes, n: Ids)
    requires !s.exited && t in s.threads && s.threads[t] == Get(a)
    requires forall i :: 0 <= i < |s.pool.free| ==> s.pool.free[i] in s.pool.jobs
    ensures var s' := Next(s, t, o, n);
            && s'.http == s.http && s'.msgs == s.msgs && s'.net == s.net && s'.pool.ops == s.pool.ops
            && s'.pool.jobs == s.pool.jobs
            && if s.pool.free == [] then !s'.exited && t in s'.threads && s'.threads[t] == Alloc(a) && s'.pool == s.pool
               else Poised(s', t, s.pool.free[0], MakeRes(a, s.pool.free[0])) && s'.pool.free == s.pool.free[1..]
  {
  }

  lemma AllocStep(s: State, t: ThreadId, a: AioId, o: Outcomes, n: Ids)
    requires !s.exited && t in s.threads && s.threads[t] == Alloc(a) && n.j !in s.pool.jobs
    ensures var s' := Next(s, t, o, n);
            if !o.enough then s'.exited
            else
              && Poised(s', t, n.j, MakeRes(a, n.j)) && s'.http == s.http && s'.msgs == s.msgs && s'.net == s.net
              && s'.pool.ops == s.pool.ops && s'.pool.free == s.pool.free && s'.pool.jobs == s.pool.jobs[n.j := NEW_JOB]
  {
  }

  /** The state once the handler has its job, if the allocation did not throw. */
  function Started(s: State, t: ThreadId, o: Outcomes, n: Ids): State {
    if s.pool.free == [] then Next(Next(s, t, o, n), t, o, n) else Next(s, t, o, n)
  }

  /** What the handler finds on the freelist. */
  ghost predicate FreeBlank(s: State) {
    forall i :: 0 <= i < |s.pool.free| ==>
      s.pool.free[i] in s.pool.jobs && Blank(s.pool.jobs[s.pool.free[i]]) && s.pool.free[i] !in s.pool.ops
  }

  lemma InvFreeBlank(s: State)
    requires Inv(s)
    ensures FreeBlank(s)
  {
    forall i | 0 <= i < |s.pool.free|
      ensures s.pool.free[i] in s.pool.jobs && Blank(s.pool.jobs[s.pool.free[i]]) && s.pool.free[i] !in s.pool.ops
    {
      FreeReady(s, s.pool.free[i]);
    }
  }

  lemma InvNew(s: State, n: Ids)
    requires Inv(s) && New(s, n)
    ensures n.c !in s.net.wire && n.j !in s.pool.ops
  {
    assert n.c in s.net.wire ==> n.c in s.net.asked;
    assert n.j in s.pool.ops ==> n.j in s.pool.holder;
  }

  /**
   `RestHandle`: in every state of the invariant, without a job the handler exits, and with the job it
   takes from the freelist or allocates it ends as the method does.
   */
  lemma HandleAlone(s: State, t: ThreadId, a: AioId, l: Mail, o: Outcomes, n: Ids, k: nat)
    requires Inv(s) && !s.exited && t in s.threads && s.threads[t] == Get(a) && New(s, n) && k >= 11
    requires Mirrors(l, s.msgs, s.net)
    ensures a in s.http.accepted
    ensures var s', s1 := Alone(s, t, o, n, k), Started(s, t, o, n);
            if s.pool.free == [] && !o.enough then s'.exited
            else
              var j := if s.pool.free == [] then n.j else s.pool.free[0];
              j in s1.pool.jobs &&
              var job := s1.pool.jobs[j];
              && (if s.pool.free == [] then job == NEW_JOB else j in s.pool.jobs && job == s.pool.jobs[j])
              && s1.pool.free == (if s.pool.free == [] then [] else s.pool.free[1..]) && s1.http == s.http
              && s1.pool.jobs == s.pool.jobs[j := job]
              && Matches(s1, s', j, a, HandleResult(job, l, a, s.http.accepted[a], n.c, n.m, o))
  {
    hide HolderInv, DutyInv, MsgInv, CtxInv, NetInv, PhaseInv, PagesRight;
    hide Next, Matches, HandleResult, Mirrors;
    ThreadAio(s, t, a);
    InvFreeBlank(s);
    InvNew(s, n);
    GetStep(s, t, a, o, n);
    var s1 := Next(s, t, o, n);
    if s.pool.free == [] {
      AllocStep(s1, t, a, o, n);
      var s2 := Next(s1, t, o, n);
      assert Alone(s, t, o, n, k) == Alone(s2, t, o, n, k - 2);
      if o.enough {
        ServeAlone(s2, t, n.j, a, l, o, n, k - 2);
      }
    } else {
      ServeAlone(s1, t, s.pool.free[0], a, l, o, n, k - 1);
      assert s.pool.jobs[s.pool.free[0] := s.pool.jobs[s.pool.free[0]]] == s.pool.jobs;
    }
  }
}
