/** Which answer each request gets, and which failures end the program. */
module RestAnswers {
  import opened Bytes
  import opened RestProxy
  import opened RestInvariant
  import opened RestSafety
  import opened RestShapes
  import opened RestTheorems

  /** The answer a request is bound for. */
  datatype Fate = ToPage | ToError | ToRefusal

  function Given(r: Response): Fate {
    match r
    case Page(_) => ToPage
    case ServerError => ToError
    case Refused => ToRefusal
  }

  function ThreadFate(pc: Thread): Fate {
    match pc
    case FatalFinish(_, _, _) => ToError
    case Clear(_, Some(_)) => ToRefusal
    case Push(_, Some(_)) => ToRefusal
    case Refuse(_) => ToRefusal
    case _ => ToPage
  }

  /** A job with a request is bound for an error once its operation has failed or its thread has given up. */
  function JobFate(s: State, j: JobId): Fate {
    if j !in s.pool.jobs || j !in s.pool.holder then ToPage
    else
      match s.pool.holder[j]
      case OnFreelist => ToPage
      case InFlight =>
        if j in s.pool.ops && s.pool.ops[j].completed && !s.pool.jobs[j].succeeded then ToError else ToPage
      case ByThread(t) =>
        if t !in s.threads then ToPage
        else if s.threads[t].Fatal? then ToError
        else if s.threads[t].Dispatch? && !s.pool.jobs[j].succeeded then ToError
        else ToPage
  }

  function FateOf(s: State, a: AioId): Fate {
    if a in s.http.finished then Given(s.http.finished[a])
    else if a !in s.http.duty then ToPage
    else
      match s.http.duty[a]
      case Local(t) => if t in s.threads then ThreadFate(s.threads[t]) else ToPage
      case Parked(j) => JobFate(s, j)
  }

  predicate Carrying(s: State, j: JobId, a: AioId) { j in s.pool.jobs && s.pool.jobs[j].httpAio == Some(a) }

  /** What a failure in this event does to the request of HTTP aio `a`. */
  function Trouble(s: State, e: Event, a: AioId): Option<Fate> {
    match e
    case Run(t, false, _) =>
      if t !in s.threads then None
      else (match s.threads[t]
            case MakeRes(b, _) => if a == b then Some(ToRefusal) else None
            case OpenCtx(b, _) => if a == b then Some(ToRefusal) else None
            case NewMsg(j, _) => if Carrying(s, j, a) then Some(ToError) else None
            case Reply(j) => if Carrying(s, j, a) then Some(ToError) else None
            case _ => None)
    case SendDone(j, false) => if Carrying(s, j, a) then Some(ToError) else None
    case RecvDone(j, false) => if Carrying(s, j, a) then Some(ToError) else None
    case _ => None
  }

  /** The event brings about the trouble it names, to a request that had none, and does nothing else to it. */
  ghost predicate Fated(s: State, s': State, e: Event, a: AioId) {
    match Trouble(s, e, a)
    case Some(f) => FateOf(s, a) == ToPage && FateOf(s', a) == f
    case None => FateOf(s', a) == FateOf(s, a)
  }

  /** What is known of HTTP aio `a` by who uses job `j`. */
  predicate Parks(s: State, j: JobId, a: AioId) {
    && (a in s.http.duty ==> a !in s.http.finished)
    && (Carrying(s, j, a) <==> a in s.http.duty && s.http.duty[a] == Parked(j))
    && (a in s.http.duty && s.http.duty[a].Parked? ==>
          s.http.duty[a].j in s.pool.jobs && s.http.duty[a].j in s.pool.holder)
  }

  /** The same for thread `t` about to run a section on job `j`. */
  predicate Placed(s: State, t: ThreadId, j: JobId, a: AioId) {
    && Parks(s, j, a)
    && (t in s.threads && AioOf(s.threads[t]) == Some(a) <==> a in s.http.duty && s.http.duty[a] == Local(t))
    && (a in s.http.duty && s.http.duty[a].Parked? && s.pool.holder[s.http.duty[a].j] == ByThread(t) ==>
          s.http.duty[a].j == j)
  }

  predicate Works(s: State, t: ThreadId, j: JobId, a: AioId) {
    t in s.threads && JobOf(s.threads[t]) == Some(j) && AboutTo(s, t, j, s.threads[t]) && Placed(s, t, j, a)
  }

  lemma JobParks(s: State, j: JobId, a: AioId)
    requires HolderInv(s.pool, s.threads) && DutyInv(s.http, s.pool.jobs, s.threads)
    ensures Parks(s, j, a)
  {
  }

  lemma IsPlaced(s: State, t: ThreadId, j: JobId, a: AioId)
    requires HolderInv(s.pool, s.threads) && DutyInv(s.http, s.pool.jobs, s.threads)
    requires t in s.threads ==> JobOf(s.threads[t]) == Some(j) || JobOf(s.threads[t]) == None
    ensures Placed(s, t, j, a)
  {
  }

  lemma SetUpFated(s: State, t: ThreadId, j: JobId, ok: bool, id: int, a: AioId)
    requires Works(s, t, j, a) && (s.threads[t].MakeRes? || s.threads[t].OpenCtx?)
    ensures Fated(s, JobSection(s, t, j, ok, id), Run(t, ok, id), a)
  {
    hide JobReady, DropCtx, CloseCtx;
  }

  lemma AttachFated(s: State, t: ThreadId, j: JobId, b: AioId, ok: bool, id: int, a: AioId)
    requires Works(s, t, j, a) && s.threads[t] == Attach(b, j)
    ensures Fated(s, DoAttach(s, t, b, j, s.pool.jobs[j]), Run(t, ok, id), a)
  {
    hide JobReady;
    var s' := DoAttach(s, t, b, j, s.pool.jobs[j]);
    if a == b {
      assert FateOf(s', a) == ToPage;
    } else if a in s.http.duty {
      assert s'.http.duty[a] == s.http.duty[a];
    }
  }

  lemma NewMsgFated(s: State, t: ThreadId, j: JobId, ok: bool, id: int, a: AioId)
    requires Works(s, t, j, a) && s.threads[t].NewMsg?
    ensures Fated(s, JobSection(s, t, j, ok, id), Run(t, ok, id), a)
  {
    hide JobReady, DropMsg, PutMsg;
  }

  lemma LoadFated(s: State, t: ThreadId, j: JobId, ok: bool, id: int, a: AioId)
    requires Works(s, t, j, a) && s.threads[t].Load?
    ensures Fated(s, JobSection(s, t, j, ok, id), Run(t, ok, id), a)
  {
    hide JobReady, PutMsg;
  }

  lemma StartFated(s: State, t: ThreadId, j: JobId, kind: JobState, ok: bool, id: int, a: AioId)
    requires Works(s, t, j, a) && (s.threads[t].StartSend? || s.threads[t].StartRecv?)
    ensures Fated(s, StartOp(s, t, j, s.pool.jobs[j], kind), Run(t, ok, id), a)
  {
    hide JobReady;
  }

  lemma GiveUpFated(s: State, t: ThreadId, j: JobId, ok: bool, id: int, a: AioId)
    requires Works(s, t, j, a) && s.threads[t].Dispatch? && !s.pool.jobs[j].succeeded
    ensures Fated(s, DoDispatch(s, t, j, s.pool.jobs[j]), Run(t, ok, id), a)
  {
    hide JobReady;
  }

  lemma TurnFated(s: State, t: ThreadId, j: JobId, ok: bool, id: int, a: AioId)
    requires Works(s, t, j, a) && s.threads[t].Dispatch? && s.pool.jobs[j].succeeded && s.pool.jobs[j].state == SendReq
    ensures Fated(s, DoDispatch(s, t, j, s.pool.jobs[j]), Run(t, ok, id), a)
  {
    hide JobReady;
  }

  lemma TakesIt(s: State, job: Job)
    requires SendEnded(s, job) || RecvEnded(s, job)
    ensures job.succeeded && job.state == RecvRep ==> TakesReply(job)
  {
  }

  lemma TakeFated(s: State, t: ThreadId, j: JobId, ok: bool, id: int, a: AioId)
    requires Works(s, t, j, a) && s.threads[t].Dispatch? && TakesReply(s.pool.jobs[j])
    ensures Fated(s, DoDispatch(s, t, j, s.pool.jobs[j]), Run(t, ok, id), a)
  {
    hide JobReady, DropMsg, MoveMsg;
  }

  lemma ReplyFated(s: State, t: ThreadId, j: JobId, ok: bool, id: int, a: AioId)
    requires Works(s, t, j, a) && s.threads[t].Reply?
    ensures Fated(s, JobSection(s, t, j, ok, id), Run(t, ok, id), a)
  {
  }

  lemma RespondFated(s: State, t: ThreadId, j: JobId, ok: bool, id: int, a: AioId)
    requires Works(s, t, j, a) && s.threads[t].Respond?
    ensures Fated(s, JobSection(s, t, j, ok, id), Run(t, ok, id), a)
  {
  }

  lemma FatalFated(s: State, t: ThreadId, j: JobId, ok: bool, id: int, a: AioId)
    requires Works(s, t, j, a) && s.threads[t].Fatal?
    ensures Fated(s, DoFatal(s, t, j, s.pool.jobs[j]), Run(t, ok, id), a)
  {
    hide Settled;
    var s' := DoFatal(s, t, j, s.pool.jobs[j]);
    if Carrying(s, j, a) {
      assert FateOf(s', a) == ToError;
    } else if a in s.http.duty {
      assert s'.http.duty[a] == s.http.duty[a];
    }
  }

  lemma FatalFinishFated(s: State, t: ThreadId, j: JobId, b: AioId, hasRes: bool, ok: bool, id: int, a: AioId)
    requires Works(s, t, j, a) && s.threads[t] == FatalFinish(b, j, hasRes)
    ensures Fated(s, DoFatalFinish(s, t, b, j, hasRes, ok), Run(t, ok, id), a)
  {
    hide Settled;
  }

  lemma ClearFated(s: State, t: ThreadId, j: JobId, ok: bool, id: int, a: AioId)
    requires Works(s, t, j, a) && s.threads[t].Clear?
    ensures Fated(s, DoClear(s, t, j, s.pool.jobs[j], s.threads[t].refuse, ok), Run(t, ok, id), a)
  {
    hide JobReady, DropMsg, DropCtx, CloseCtx;
  }

  lemma PushFated(s: State, t: ThreadId, j: JobId, ok: bool, id: int, a: AioId)
    requires Works(s, t, j, a) && s.threads[t].Push?
    ensures Fated(s, DoPush(s, t, j, s.threads[t].refuse), Run(t, ok, id), a)
  {
    hide JobReady;
  }

  lemma HeldFated(s: State, t: ThreadId, j: JobId, ok: bool, id: int, a: AioId)
    requires Works(s, t, j, a)
    ensures Fated(s, JobSection(s, t, j, ok, id), Run(t, ok, id), a)
  {
    hide Fated, Placed, SendEnded, RecvEnded, DoAttach, DoDispatch, DoFatal, DoFatalFinish, DoClear, DoPush, StartOp;
    match s.threads[t]
    case MakeRes(_, _) => SetUpFated(s, t, j, ok, id, a);
    case OpenCtx(_, _) => SetUpFated(s, t, j, ok, id, a);
    case Attach(b, _) => AttachFated(s, t, j, b, ok, id, a);
    case NewMsg(_, _) => NewMsgFated(s, t, j, ok, id, a);
    case Load(_, _) => LoadFated(s, t, j, ok, id, a);
    case StartSend(_) => StartFated(s, t, j, SendReq, ok, id, a);
    case Dispatch(_) =>
      if !s.pool.jobs[j].succeeded {
        GiveUpFated(s, t, j, ok, id, a);
      } else if s.pool.jobs[j].state == SendReq {
        TurnFated(s, t, j, ok, id, a);
      } else {
        TakesIt(s, s.pool.jobs[j]);
        TakeFated(s, t, j, ok, id, a);
      }
    case StartRecv(_) => StartFated(s, t, j, RecvRep, ok, id, a);
    case Reply(_) => ReplyFated(s, t, j, ok, id, a);
    case Respond(_) => RespondFated(s, t, j, ok, id, a);
    case Fatal(_) => FatalFated(s, t, j, ok, id, a);
    case FatalFinish(b, _, r) => FatalFinishFated(s, t, j, b, r, ok, id, a);
    case Clear(_, _) => ClearFated(s, t, j, ok, id, a);
    case Push(_, _) => PushFated(s, t, j, ok, id, a);
  }

  lemma HeadIsFree(p: Pool, threads: map<ThreadId, Thread>)
    requires HolderInv(p, threads) && p.free != []
    ensures p.free[0] in p.holder && p.holder[p.free[0]] == OnFreelist
  {
    assert p.free[0] in p.free;
  }

  lemma GetFated(s: State, t: ThreadId, b: AioId, ok: bool, id: int, a: AioId)
    requires Placed(s, t, id, a) && t in s.threads && s.threads[t] == Get(b)
    requires s.pool.free != [] ==> s.pool.free[0] in s.pool.holder && s.pool.holder[s.pool.free[0]] == OnFreelist
    ensures Fated(s, DoGet(s, t, b), Run(t, ok, id), a)
  {
  }

  lemma AllocFated(s: State, t: ThreadId, b: AioId, ok: bool, id: int, a: AioId)
    requires Placed(s, t, id, a) && t in s.threads && s.threads[t] == Alloc(b) && id !in s.pool.jobs
    ensures Fated(s, DoAlloc(s, t, b, ok, id), Run(t, ok, id), a)
  {
  }

  lemma EndFated(s: State, t: ThreadId, ok: bool, id: int, a: AioId)
    requires HolderInv(s.pool, s.threads) && DutyInv(s.http, s.pool.jobs, s.threads)
    requires t in s.threads && (s.threads[t].Refuse? || s.threads[t].Releasing?)
    ensures Fated(s, Section(s, t, ok, id), Run(t, ok, id), a)
  {
    hide JobSection;
  }

  lemma SectionFated(s: State, t: ThreadId, ok: bool, id: int, a: AioId)
    requires Inv(s) && Enabled(s, Run(t, ok, id))
    ensures Fated(s, Section(s, t, ok, id), Run(t, ok, id), a)
  {
    hide HolderInv, DutyInv, MsgInv, CtxInv, NetInv, PhaseInv, PagesRight, Fated, JobSection, DoGet, DoAlloc, JobReady,
         Placed;
    match s.threads[t]
    case Get(b) =>
      IsPlaced(s, t, id, a);
      if s.pool.free != [] { HeadIsFree(s.pool, s.threads); }
      GetFated(s, t, b, ok, id, a);
    case Alloc(b) =>
      IsPlaced(s, t, id, a);
      AllocFated(s, t, b, ok, id, a);
    case Refuse(_) => EndFated(s, t, ok, id, a);
    case Releasing => EndFated(s, t, ok, id, a);
    case _ =>
      HeldReady(s, t, s.threads[t].job);
      IsPlaced(s, t, s.threads[t].job, a);
      HeldFated(s, t, s.threads[t].job, ok, id, a);
  }

  // ---- The library, the server and new requests ----

  lemma SendDoneFated(s: State, j: JobId, ok: bool, a: AioId)
    requires InProgress(s.pool, j, SendReq) && Sending(s, s.pool.jobs[j])
    requires j in s.pool.holder && s.pool.holder[j] == InFlight && Parks(s, j, a)
    ensures Fated(s, DoSendDone(s, j, s.pool.jobs[j], ok), SendDone(j, ok), a)
  {
    hide MoveMsg;
  }

  lemma RecvDoneFated(s: State, j: JobId, ok: bool, a: AioId)
    requires InProgress(s.pool, j, RecvRep) && (ok ==> Answered(s.net, s.pool.jobs[j].ctx))
    requires j in s.pool.holder && s.pool.holder[j] == InFlight && Parks(s, j, a)
    ensures Fated(s, DoRecvDone(s, j, s.pool.jobs[j], ok), RecvDone(j, ok), a)
  {
    hide MoveMsg;
  }

  lemma CompletionFated(s: State, e: Event, a: AioId)
    requires Inv(s) && Enabled(s, e) && (e.SendDone? || e.RecvDone?)
    ensures Fated(s, Do(s, e), e, a)
  {
    hide HolderInv, DutyInv, MsgInv, CtxInv, NetInv, PhaseInv, PagesRight, Fated, DoSendDone, DoRecvDone, Parks;
    OpIsReady(s, e.j);
    JobParks(s, e.j, a);
    if e.SendDone? { SendDoneFated(s, e.j, e.ok, a); } else { RecvDoneFated(s, e.j, e.ok, a); }
  }

  lemma CallbackFated(s: State, t: ThreadId, j: JobId, a: AioId)
    requires Placed(s, t, j, a) && t !in s.threads && j in s.pool.ops && s.pool.ops[j].completed
    requires j in s.pool.holder && s.pool.holder[j] == InFlight
    ensures Fated(s, DoCallback(s, t, j), Callback(t, j), a)
  {
  }

  lemma ArrivalFated(s: State, e: Event, a: AioId)
    requires Inv(s) && Enabled(s, e) && e.Accept?
    ensures Fated(s, Do(s, e), e, a)
  {
    hide MsgInv, CtxInv, NetInv, PagesRight, PhaseInv;
  }

  lemma ServerFated(s: State, e: Event, a: AioId)
    requires Enabled(s, e) && (e.ServerRecv? || e.ServerTurn? || e.ServerSend? || e.Lapse?)
    ensures Fated(s, Do(s, e), e, a)
  {
    hide MoveMsg, DropMsg, PutMsg;
  }

  lemma StepFated(s: State, e: Event, a: AioId)
    requires Inv(s) && Enabled(s, e)
    ensures Fated(s, Step(s, e), e, a)
  {
    hide HolderInv, DutyInv, MsgInv, CtxInv, NetInv, PhaseInv, PagesRight, Fated, Placed, Section, DoCallback;
    match e
    case Run(t, ok, id) => SectionFated(s, t, ok, id, a);
    case SendDone(_, _) => CompletionFated(s, e, a);
    case RecvDone(_, _) => CompletionFated(s, e, a);
    case Callback(t, j) =>
      OpIsReady(s, j);
      IsPlaced(s, t, j, a);
      CallbackFated(s, t, j, a);
    case Accept(_, _, _) => ArrivalFated(s, e, a);
    case _ => ServerFated(s, e, a);
  }

  // ---- Over runs ----

  /** Event `k` of the run is a failure that turns the request of `a` from its page to another answer. */
  predicate FailsFor(run: seq<Event>, k: int, a: AioId, f: Fate) {
    0 <= k < |run| && Enabled(After(run[..k]), run[k]) && Trouble(After(run[..k]), run[k], a) == Some(f)
  }

  lemma FailsBefore(run: seq<Event>, k: int, a: AioId, f: Fate)
    requires run != [] && k < |run| - 1
    ensures FailsFor(run[..|run| - 1], k, a, f) <==> FailsFor(run, k, a, f)
  {
    if 0 <= k { assert run[..|run| - 1][..k] == run[..k]; }
  }

  lemma FirstFate(a: AioId)
    ensures FateOf(INIT, a) == ToPage
  {
  }

  /** A request is bound for an error or a refusal if and only if a failure of the run turned it there. */
  lemma {:induction false} FateIsFailure(run: seq<Event>, a: AioId, f: Fate)
    requires f != ToPage
    ensures FateOf(After(run), a) == f <==> exists k :: FailsFor(run, k, a, f)
  {
    hide Inv, Do, FateOf, Trouble;
    if run == [] {
      FirstFate(a);
    } else {
      var before, n := run[..|run| - 1], |run| - 1;
      FateIsFailure(before, a, f);
      RunInv(before);
      if Enabled(After(before), run[n]) { StepFated(After(before), run[n], a); }
      if k :| FailsFor(before, k, a, f) { FailsBefore(run, k, a, f); }
      if k :| FailsFor(run, k, a, f) {
        if k < n { FailsBefore(run, k, a, f); }
      }
      assert FailsFor(run, n, a, f) <==>
             Enabled(After(before), run[n]) && Trouble(After(before), run[n], a) == Some(f);
    }
  }

  lemma NoTroubleIsPage(s: State, e: Event, a: AioId)
    ensures Trouble(s, e, a) != Some(ToPage)
  {
  }

  /**
   Each answer is explained by the failures of its own request, whatever happened to others: a refusal by a
   response object or a context that could not be made, an error page by a message that could not be made,
   sent, received or copied out, and a page by none of these.
   */
  lemma AnswerIsExplained(run: seq<Event>, a: AioId)
    requires a in After(run).http.finished
    ensures After(run).http.finished[a] == Refused <==> exists k :: FailsFor(run, k, a, ToRefusal)
    ensures After(run).http.finished[a] == ServerError <==> exists k :: FailsFor(run, k, a, ToError)
    ensures After(run).http.finished[a].Page? <==> forall k, f :: !FailsFor(run, k, a, f)
  {
    hide After, Trouble;
    FateIsFailure(run, a, ToRefusal);
    FateIsFailure(run, a, ToError);
    if k, f :| FailsFor(run, k, a, f) {
      NoTroubleIsPage(After(run[..k]), run[k], a);
      assert f == ToRefusal || f == ToError;
    }
  }

  // ---- What ends the program ----

  /** A failed call whose exception no handler inside the callback, the handler or the server catches. */
  predicate Ends(s: State, e: Event) {
    match e
    case Run(t, ok, _) =>
      !ok && t in s.threads &&
      (match s.threads[t]
       case Alloc(_) => true
       case Respond(_) => true
       case FatalFinish(_, _, _) => true
       case Clear(j, _) => j in s.pool.jobs && s.pool.jobs[j].ctx.Some?
       case _ => false)
    case ServerRecv(_, ok) => !ok
    case ServerSend(ok) => !ok
    case _ => false
  }

  /** The program exits in these events and in no others. */
  lemma ExitsIff(s: State, e: Event)
    requires Inv(s) && Enabled(s, e)
    ensures Step(s, e).exited <==> Ends(s, e)
  {
    hide HolderInv, DutyInv, MsgInv, CtxInv, NetInv, PhaseInv, PagesRight;
    if e.Run? && JobOf(s.threads[e.t]).Some? {
      HeldReady(s, e.t, JobOf(s.threads[e.t]).value);
    }
  }

  predicate EndsAt(run: seq<Event>, k: int) {
    0 <= k < |run| && Enabled(After(run[..k]), run[k]) && Ends(After(run[..k]), run[k])
  }

  lemma {:induction false} ExitedIff(run: seq<Event>)
    ensures After(run).exited <==> exists k :: EndsAt(run, k)
  {
    hide Inv, Do, Ends;
    if run != [] {
      var before, n := run[..|run| - 1], |run| - 1;
      ExitedIff(before);
      RunInv(before);
      if Enabled(After(before), run[n]) { ExitsIff(After(before), run[n]); }
      forall k | k < n ensures EndsAt(before, k) <==> EndsAt(run, k) {
        if 0 <= k { assert before[..k] == run[..k]; }
      }
      assert EndsAt(run, n) <==> Enabled(After(before), run[n]) && Ends(After(before), run[n]);
    }
  }
}
