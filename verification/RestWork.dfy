/**
 How much there is left to do: each event uses up work that only accepting a request brings in, so every
 run is finite for the requests in it.
 */
module RestWork {
  import opened Bytes
  import opened Collections
  import opened Sums
  import opened RestProxy
  import opened RestInvariant
  import opened RestSafety
  import opened RestShapes
  import opened RestTheorems

  // ---- What is left to do ----

  /** Events a thread can still bring about, the operation it may start included. */
  function Rank(jobs: map<JobId, Job>, pc: Thread): nat {
    match pc
    case Get(_) => 26
    case Alloc(_) => 25
    case MakeRes(_, _) => 24
    case OpenCtx(_, _) => 23
    case Attach(_, _) => 22
    case NewMsg(_, _) => 21
    case Load(_, _) => 20
    case StartSend(_) => 19
    case Dispatch(j) => if j in jobs && jobs[j].state == RecvRep then 7 else 12
    case StartRecv(_) => 11
    case Reply(_) => 6
    case Fatal(_) => 5
    case Respond(_) => 4
    case FatalFinish(_, _, _) => 4
    case Clear(_, _) => 3
    case Push(_, _) => 2
    case Refuse(_) => 1
    case Releasing => 1
  }

  function OpRank(op: Op): nat {
    match op
    case Op(SendReq, false) => 17
    case Op(SendReq, true) => 13
    case Op(RecvRep, false) => 9
    case Op(RecvRep, true) => 8
  }

  function WireRank(w: Wire): nat { if w.Request? then 3 else 0 }

  function ServerRank(v: Server): nat {
    match v case Idle => 0 case Got(_, _) => 2 case Turned(_, _) => 1
  }

  function Threads(s: State): map<int, int> { map t | t in s.threads :: Rank(s.pool.jobs, s.threads[t]) }
  function Ops(p: Pool): map<int, int> { map j | j in p.ops :: OpRank(p.ops[j]) }
  function Wires(n: Net): map<int, int> { map c | c in n.wire :: WireRank(n.wire[c]) }

  ghost function Work(s: State): int {
    Sum(Threads(s)) + Sum(Ops(s.pool)) + Sum(Wires(s.net)) + ServerRank(s.net.server)
  }

  // ---- Sections ----

  /** The threads other than `t`, and the states of the jobs they hold, are as before. */
  ghost predicate OnlyThread(s: State, s': State, t: ThreadId) {
    && (forall u :: u != t ==> (u in s.threads <==> u in s'.threads))
    && (forall u :: u in s.threads && u != t ==> s'.threads[u] == s.threads[u])
    && (forall u :: u in s.threads && u != t ==> Rank(s'.pool.jobs, s.threads[u]) == Rank(s.pool.jobs, s.threads[u]))
  }

  lemma ThreadWork(s: State, s': State, t: ThreadId)
    requires OnlyThread(s, s', t)
    ensures Sum(Threads(s')) + (if t in s.threads then Rank(s.pool.jobs, s.threads[t]) else 0)
         == Sum(Threads(s)) + (if t in s'.threads then Rank(s'.pool.jobs, s'.threads[t]) else 0)
  {
    SumDiffer(Threads(s), Threads(s'), t);
  }

  lemma OthersHoldOthers(s: State, t: ThreadId, u: ThreadId, j: JobId)
    requires HolderInv(s.pool, s.threads) && t in s.threads && JobOf(s.threads[t]) == Some(j)
    requires u in s.threads && u != t && JobOf(s.threads[u]).Some?
    ensures JobOf(s.threads[u]) != Some(j) && JobOf(s.threads[u]).value in s.pool.jobs
  {
    var k: JobId := JobOf(s.threads[u]).value;
    assert k in s.pool.holder && s.pool.holder[k] == ByThread(u);
  }

  lemma HeldOnly(s: State, t: ThreadId, j: JobId, ok: bool, id: int)
    requires HolderInv(s.pool, s.threads) && t in s.threads && JobOf(s.threads[t]) == Some(j)
    ensures OnlyThread(s, Section(s, t, ok, id), t)
  {
    hide HolderInv, Section;
    var s' := Section(s, t, ok, id);
    SectionShape(s, t, j, ok, id);
    forall u | u in s.threads && u != t ensures Rank(s'.pool.jobs, s.threads[u]) == Rank(s.pool.jobs, s.threads[u]) {
      if s.threads[u].Dispatch? {
        OthersHoldOthers(s, t, u, j);
      }
    }
  }

  predicate Starts(pc: Thread) { pc.StartSend? || pc.StartRecv? }

  function Started(pc: Thread): Op { Op(if pc.StartSend? then SendReq else RecvRep, false) }

  function StartedRank(pc: Thread): nat { if Starts(pc) then OpRank(Started(pc)) else 0 }

  /** What a section that does not exit does outside its thread. */
  ghost predicate Effect(s: State, s': State, t: ThreadId, j: JobId)
    requires t in s.threads
  {
    && s'.pool.ops == (if Starts(s.threads[t]) then s.pool.ops[j := Started(s.threads[t])] else s.pool.ops)
    && s'.net.server == s.net.server
    && (s'.net.wire == s.net.wire || exists c :: s'.net.wire == s.net.wire - {c})
    && (t in s'.threads ==>
          Rank(s'.pool.jobs, s'.threads[t]) + StartedRank(s.threads[t]) < Rank(s.pool.jobs, s.threads[t]))
  }

  lemma MakeResEffect(s: State, t: ThreadId, j: JobId, a: AioId, ok: bool)
    requires AboutTo(s, t, j, MakeRes(a, j))
    ensures var s' := DoMakeRes(s, t, a, j, s.pool.jobs[j], ok); s'.exited || Effect(s, s', t, j)
  {
  }

  lemma OpenCtxEffect(s: State, t: ThreadId, j: JobId, a: AioId, ok: bool, c: CtxId)
    requires AboutTo(s, t, j, OpenCtx(a, j))
    ensures var s' := DoOpenCtx(s, t, a, j, s.pool.jobs[j], ok, c); s'.exited || Effect(s, s', t, j)
  {
  }

  lemma AttachEffect(s: State, t: ThreadId, j: JobId, a: AioId)
    requires AboutTo(s, t, j, Attach(a, j)) && a in s.http.accepted
    ensures var s' := DoAttach(s, t, a, j, s.pool.jobs[j]); s'.exited || Effect(s, s', t, j)
  {
  }

  lemma NewMsgEffect(s: State, t: ThreadId, j: JobId, data: Bytes, ok: bool, m: MsgId)
    requires AboutTo(s, t, j, NewMsg(j, data))
    ensures var s' := DoNewMsg(s, t, j, s.pool.jobs[j], data, ok, m); s'.exited || Effect(s, s', t, j)
  {
  }

  lemma LoadEffect(s: State, t: ThreadId, j: JobId, data: Bytes)
    requires AboutTo(s, t, j, Load(j, data))
    requires Owned(s.msgs, s.pool.jobs[j].msg.value, JobMsg(j))
    ensures var s' := DoLoad(s, t, j, s.pool.jobs[j], data); s'.exited || Effect(s, s', t, j)
  {
  }

  lemma StartSendEffect(s: State, t: ThreadId, j: JobId)
    requires AboutTo(s, t, j, StartSend(j)) && j !in s.pool.ops
    ensures var s' := StartOp(s, t, j, s.pool.jobs[j], SendReq); s'.exited || Effect(s, s', t, j)
  {
  }

  lemma StartRecvEffect(s: State, t: ThreadId, j: JobId)
    requires AboutTo(s, t, j, StartRecv(j)) && j !in s.pool.ops
    ensures var s' := StartOp(s, t, j, s.pool.jobs[j], RecvRep); s'.exited || Effect(s, s', t, j)
  {
  }

  lemma DispatchEffect(s: State, t: ThreadId, j: JobId)
    requires AboutTo(s, t, j, Dispatch(j))
    ensures var s' := DoDispatch(s, t, j, s.pool.jobs[j]); s'.exited || Effect(s, s', t, j)
  {
  }

  lemma ReplyEffect(s: State, t: ThreadId, j: JobId, ok: bool)
    requires AboutTo(s, t, j, Reply(j))
    ensures var s' := DoReply(s, t, j, s.pool.jobs[j], ok); s'.exited || Effect(s, s', t, j)
  {
  }

  lemma RespondEffect(s: State, t: ThreadId, j: JobId, ok: bool)
    requires AboutTo(s, t, j, Respond(j))
    ensures var s' := DoRespond(s, t, j, s.pool.jobs[j], ok); s'.exited || Effect(s, s', t, j)
  {
  }

  lemma FatalEffect(s: State, t: ThreadId, j: JobId)
    requires AboutTo(s, t, j, Fatal(j))
    ensures var s' := DoFatal(s, t, j, s.pool.jobs[j]); s'.exited || Effect(s, s', t, j)
  {
  }

  lemma FatalFinishEffect(s: State, t: ThreadId, j: JobId, a: AioId, r: bool, ok: bool)
    requires AboutTo(s, t, j, FatalFinish(a, j, r))
    ensures var s' := DoFatalFinish(s, t, a, j, r, ok); s'.exited || Effect(s, s', t, j)
  {
  }

  lemma ClearEffect(s: State, t: ThreadId, j: JobId, r: Option<AioId>, ok: bool)
    requires AboutTo(s, t, j, Clear(j, r))
    ensures var s' := DoClear(s, t, j, s.pool.jobs[j], r, ok); s'.exited || Effect(s, s', t, j)
  {
    var c := s.pool.jobs[j].ctx;
    assert CloseCtx(s.net, c).wire == s.net.wire || (c.Some? && CloseCtx(s.net, c).wire == s.net.wire - {c.value});
  }

  lemma PushEffect(s: State, t: ThreadId, j: JobId, r: Option<AioId>)
    requires AboutTo(s, t, j, Push(j, r))
    ensures var s' := DoPush(s, t, j, r); s'.exited || Effect(s, s', t, j)
  {
  }

  lemma SectionEffect(s: State, s': State, t: ThreadId, j: JobId, ok: bool, id: int)
    requires Inv(s) && Runs(s, s', t, j, ok, id)
    ensures s'.exited || Effect(s, s', t, j)
    ensures Starts(s.threads[t]) ==> j !in s.pool.ops
  {
    hide HolderInv, DutyInv, MsgInv, CtxInv, NetInv, PhaseInv, PagesRight, Effect;
    HeldReady(s, t, j);
    HeldNotStarted(s, t, j);
    HeldMsg(s, j);
    HeldAio(s, t, j);
    match s.threads[t]
    case MakeRes(a, _) => MakeResEffect(s, t, j, a, ok);
    case OpenCtx(a, _) => OpenCtxEffect(s, t, j, a, ok, id);
    case Attach(a, _) => AttachEffect(s, t, j, a);
    case NewMsg(_, data) => NewMsgEffect(s, t, j, data, ok, id);
    case Load(_, data) => LoadEffect(s, t, j, data);
    case StartSend(_) => StartSendEffect(s, t, j);
    case StartRecv(_) => StartRecvEffect(s, t, j);
    case Dispatch(_) => DispatchEffect(s, t, j);
    case Reply(_) => ReplyEffect(s, t, j, ok);
    case Respond(_) => RespondEffect(s, t, j, ok);
    case Fatal(_) => FatalEffect(s, t, j);
    case FatalFinish(a, _, r) => FatalFinishEffect(s, t, j, a, r, ok);
    case Clear(_, r) => ClearEffect(s, t, j, r, ok);
    case Push(_, r) => PushEffect(s, t, j, r);
  }

  lemma OpWork(p: Pool, p': Pool, j: JobId)
    requires forall k :: k != j ==> (k in p.ops <==> k in p'.ops) && (k in p.ops ==> p'.ops[k] == p.ops[k])
    ensures Sum(Ops(p')) + (if j in p.ops then OpRank(p.ops[j]) else 0)
         == Sum(Ops(p)) + (if j in p'.ops then OpRank(p'.ops[j]) else 0)
  {
    SumDiffer(Ops(p), Ops(p'), j);
  }

  lemma WireWork(n: Net, n': Net, c: CtxId)
    requires forall k :: k != c ==> (k in n.wire <==> k in n'.wire) && (k in n.wire ==> n'.wire[k] == n.wire[k])
    ensures Sum(Wires(n')) + (if c in n.wire then WireRank(n.wire[c]) else 0)
         == Sum(Wires(n)) + (if c in n'.wire then WireRank(n'.wire[c]) else 0)
  {
    SumDiffer(Wires(n), Wires(n'), c);
  }

  lemma WireShrinks(n: Net, n': Net)
    requires n'.wire == n.wire || exists c :: n'.wire == n.wire - {c}
    ensures Sum(Wires(n')) <= Sum(Wires(n))
  {
    if n'.wire != n.wire {
      var c :| n'.wire == n.wire - {c};
      WireWork(n, n', c);
    } else {
      WireWork(n, n', 0);
    }
  }

  lemma EffectWork(s: State, s': State, t: ThreadId, j: JobId)
    requires t in s.threads && OnlyThread(s, s', t) && Effect(s, s', t, j)
    requires Starts(s.threads[t]) ==> j !in s.pool.ops
    ensures Work(s') < Work(s)
  {
    hide Sum;
    assert t !in s'.threads ==> Rank(s.pool.jobs, s.threads[t]) > StartedRank(s.threads[t]);
    ThreadWork(s, s', t);
    WireShrinks(s.net, s'.net);
    hide OnlyThread, Rank;
    OpWork(s.pool, s'.pool, j);
  }

  lemma HeldWork(s: State, t: ThreadId, j: JobId, ok: bool, id: int)
    requires Inv(s) && Enabled(s, Run(t, ok, id)) && JobOf(s.threads[t]) == Some(j)
    ensures Section(s, t, ok, id).exited || Work(Section(s, t, ok, id)) < Work(s)
  {
    hide HolderInv, DutyInv, MsgInv, CtxInv, NetInv, PhaseInv, PagesRight, JobReady;
    hide JobSection, Effect, OnlyThread, Work;
    HeldReady(s, t, j);
    var s' := JobSection(s, t, j, ok, id);
    SectionEffect(s, s', t, j, ok, id);
    if !s'.exited {
      HeldOnly(s, t, j, ok, id);
      EffectWork(s, s', t, j);
    }
  }

  /** Threads that hold no job change no job a callback is about to look at. */
  lemma IdleOnly(s: State, t: ThreadId, ok: bool, id: int)
    requires HolderInv(s.pool, s.threads) && Enabled(s, Run(t, ok, id)) && JobOf(s.threads[t]) == None
    ensures OnlyThread(s, Section(s, t, ok, id), t)
  {
    forall u | u in s.threads && u != t
      ensures Rank(Section(s, t, ok, id).pool.jobs, s.threads[u]) == Rank(s.pool.jobs, s.threads[u])
    {
      if s.threads[u].Dispatch? {
        assert JobOf(s.threads[u]) == Some(s.threads[u].job) && s.threads[u].job in s.pool.holder;
      }
    }
  }

  lemma ThreadsWork(s: State, s': State, t: ThreadId)
    requires OnlyThread(s, s', t) && t in s.threads && s'.pool.ops == s.pool.ops && s'.net == s.net
    requires t in s'.threads ==> Rank(s'.pool.jobs, s'.threads[t]) < Rank(s.pool.jobs, s.threads[t])
    ensures Work(s') < Work(s)
  {
    ThreadWork(s, s', t);
    OpWork(s.pool, s'.pool, 0);
  }

  lemma IdleWork(s: State, t: ThreadId, ok: bool, id: int)
    requires Inv(s) && Enabled(s, Run(t, ok, id)) && JobOf(s.threads[t]) == None
    ensures Section(s, t, ok, id).exited || Work(Section(s, t, ok, id)) < Work(s)
  {
    hide HolderInv, DutyInv, MsgInv, CtxInv, NetInv, PhaseInv, PagesRight, JobSection, OnlyThread, Work;
    IdleOnly(s, t, ok, id);
    if !Section(s, t, ok, id).exited {
      ThreadsWork(s, Section(s, t, ok, id), t);
    }
  }

  // ---- The library and the server ----

  lemma SameThreads(s: State, s': State)
    requires s'.threads == s.threads
    requires forall k :: k in s.pool.jobs <==> k in s'.pool.jobs
    requires forall k :: k in s.pool.jobs ==> s'.pool.jobs[k].state == s.pool.jobs[k].state
    ensures Sum(Threads(s')) == Sum(Threads(s))
  {
    SumDiffer(Threads(s), Threads(s'), 0);
  }

  lemma CompleteWork(s: State, s': State, j: JobId, c: CtxId)
    requires s'.threads == s.threads && s'.net.server == s.net.server && j in s.pool.jobs && j in s.pool.ops
    requires j in s'.pool.jobs && s'.pool.jobs == s.pool.jobs[j := s'.pool.jobs[j]]
    requires s'.pool.jobs[j].state == s.pool.jobs[j].state
    requires s'.pool.ops == s.pool.ops[j := s.pool.ops[j].(completed := true)] && !s.pool.ops[j].completed
    requires s'.net.wire == s.net.wire || s'.net.wire == s.net.wire - {c}
          || (c in s'.net.wire && s'.net.wire == s.net.wire[c := s'.net.wire[c]] && s.pool.ops[j].kind == SendReq)
    ensures Work(s') < Work(s)
  {
    SameThreads(s, s');
    OpWork(s.pool, s'.pool, j);
    WireWork(s.net, s'.net, c);
  }

  lemma SendDoneWork(s: State, j: JobId, ok: bool)
    requires Inv(s) && Enabled(s, SendDone(j, ok))
    ensures Work(DoSendDone(s, j, s.pool.jobs[j], ok)) < Work(s)
  {
    hide HolderInv, DutyInv, MsgInv, CtxInv, NetInv, PhaseInv, PagesRight, Work;
    SendingReady(s, j);
    HeldMsg(s, j);
    CompleteWork(s, DoSendDone(s, j, s.pool.jobs[j], ok), j, s.pool.jobs[j].ctx.value);
  }

  lemma RecvDoneWork(s: State, j: JobId, ok: bool)
    requires Inv(s) && Enabled(s, RecvDone(j, ok))
    ensures Work(DoRecvDone(s, j, s.pool.jobs[j], ok)) < Work(s)
  {
    hide HolderInv, DutyInv, MsgInv, CtxInv, NetInv, PhaseInv, PagesRight, Work;
    OpIsReady(s, j);
    CompleteWork(s, DoRecvDone(s, j, s.pool.jobs[j], ok), j, s.pool.jobs[j].ctx.value);
  }

  lemma CallbackRank(s: State, t: ThreadId, j: JobId)
    requires j in s.pool.jobs && j in s.pool.ops && s.pool.ops[j].completed && OpReady(s, s.pool.ops[j], s.pool.jobs[j])
    ensures Rank(s.pool.jobs, Dispatch(j)) < OpRank(s.pool.ops[j])
  {
  }

  lemma CallbackWork(s: State, t: ThreadId, j: JobId)
    requires Inv(s) && Enabled(s, Callback(t, j))
    ensures Work(DoCallback(s, t, j)) < Work(s)
  {
    hide HolderInv, DutyInv, MsgInv, CtxInv, NetInv, PhaseInv, PagesRight, OpReady, OpRank, Rank;
    OpIsReady(s, j);
    CallbackRank(s, t, j);
    OpWork(s.pool, DoCallback(s, t, j).pool, j);
    ThreadWork(s, DoCallback(s, t, j), t);
  }

  lemma ServerWork(s: State, e: Event)
    requires Inv(s) && Enabled(s, e) && (e.ServerRecv? || e.ServerTurn? || e.ServerSend? || e.Lapse?)
    ensures Step(s, e).exited || Work(Step(s, e)) < Work(s)
  {
    hide HolderInv, DutyInv, MsgInv, CtxInv, NetInv, PhaseInv, PagesRight;
    ServerFacts(s);
    var s' := Step(s, e);
    SameThreads(s, s');
    WireWork(s.net, s'.net, if e.ServerRecv? || e.Lapse? then e.c else s.net.server.c);
  }

  /** Every event but an accepted request leaves less to do, unless the program exits. */
  lemma WorkDecreases(s: State, e: Event)
    requires Inv(s) && Enabled(s, e) && !e.Accept?
    ensures Step(s, e).exited || Work(Step(s, e)) < Work(s)
  {
    hide Inv, Work;
    match e
    case Run(t, ok, id) =>
      if JobOf(s.threads[t]).Some? {
        HeldWork(s, t, JobOf(s.threads[t]).value, ok, id);
      } else {
        IdleWork(s, t, ok, id);
      }
    case SendDone(j, ok) => SendDoneWork(s, j, ok);
    case RecvDone(j, ok) => RecvDoneWork(s, j, ok);
    case Callback(t, j) => CallbackWork(s, t, j);
    case _ => ServerWork(s, e);
  }

  lemma AcceptWork(s: State, t: ThreadId, a: AioId, body: Bytes)
    requires Enabled(s, Accept(t, a, body))
    ensures Work(DoAccept(s, t, a, body)) == Work(s) + 26
  {
    ThreadWork(s, DoAccept(s, t, a, body), t);
  }

  // ---- Runs ----

  /** A run in which every event really happens. */
  predicate Effective(run: seq<Event>) {
    run == [] || (Effective(run[..|run| - 1]) && Enabled(After(run[..|run| - 1]), run[|run| - 1]))
  }

  lemma CanHappenHasWork(s: State, e: Event)
    requires Enabled(s, e) && !e.Accept?
    ensures Work(s) > 0
  {
    SumBounds(Threads(s));
    SumBounds(Ops(s.pool));
    SumBounds(Wires(s.net));
    match e
    case Run(t, _, _) => assert t in Threads(s);
    case SendDone(j, _) => assert j in Ops(s.pool);
    case RecvDone(j, _) => assert j in Ops(s.pool);
    case Callback(_, j) => assert j in Ops(s.pool);
    case ServerRecv(c, _) => assert c in Wires(s.net);
    case Lapse(c) => assert c in Wires(s.net);
    case _ =>
  }

  /** A run has at most 27 events for each request accepted in it. */
  lemma {:induction false} RunBound(run: seq<Event>)
    requires Effective(run)
    ensures |run| <= 27 * |After(run).http.accepted|
    ensures !After(run).exited ==> |run| + Work(After(run)) <= 27 * |After(run).http.accepted|
  {
    if run != [] {
      hide Inv, Work;
      var before, e := run[..|run| - 1], run[|run| - 1];
      var s := After(before);
      RunBound(before);
      RunInv(before);
      if e.Accept? {
        AcceptWork(s, e.t, e.a, e.body);
        PutSize(s.http.accepted, e.a, e.body);
      } else {
        CanHappenHasWork(s, e);
        WorkDecreases(s, e);
        AcceptedStays(s, e);
      }
    }
  }
}
