/** What the proxy guarantees over every run, stated on its pointers rather than on the tokens. */
module RestTheorems {
  import opened Bytes
  import opened Collections
  import opened RestProxy
  import opened RestInvariant
  import opened RestSafety
  import opened RestShapes
  import Rot13

  // ---- No misuse ----

  /**
   No section touches a job another thread or the library has taken over, dereferences a null pointer,
   frees a message it does not own or finishes an HTTP aio it need not answer.
   */
  lemma NeverMisuses(run: seq<Event>)
    ensures !Faulted(After(run))
  {
    RunInv(run);
  }

  // ---- Hand-off of jobs ----

  /** Who may touch a job: the freelist at a position, a thread with sections left on it, or the library. */
  datatype User = Freelist(i: nat) | Worker(t: ThreadId) | Library

  predicate Uses(s: State, u: User, j: JobId) {
    match u
    case Freelist(i) => i < |s.pool.free| && s.pool.free[i] == j
    case Worker(t) => t in s.threads && JobOf(s.threads[t]) == Some(j)
    case Library => j in s.pool.ops
  }

  /** Every allocated job has exactly one user, and nothing else is ever used. */
  lemma ExactlyOneUser(run: seq<Event>, j: JobId)
    ensures var s := After(run);
            && (j in s.pool.jobs <==> exists u :: Uses(s, u, j))
            && (forall u, v :: Uses(s, u, j) && Uses(s, v, j) ==> u == v)
  {
    hide DutyInv, MsgInv, CtxInv, NetInv, PhaseInv, PagesRight, Step;
    RunInv(run);
    var s := After(run);
    if j in s.pool.jobs {
      match s.pool.holder[j]
      case OnFreelist =>
        var i :| 0 <= i < |s.pool.free| && s.pool.free[i] == j;
        assert Uses(s, Freelist(i), j);
      case ByThread(t) => assert Uses(s, Worker(t), j);
      case InFlight => assert Uses(s, Library, j);
    }
    forall u | Uses(s, u, j)
      ensures j in s.pool.jobs
      ensures s.pool.holder[j] == match u
                                  case Freelist(_) => OnFreelist
                                  case Worker(t) => ByThread(t)
                                  case Library => InFlight
    {
      if u.Freelist? {
        assert s.pool.free[u.i] in s.pool.free;
      }
    }
  }

  /** A job on the freelist holds no aio, no response, no message and no context. */
  lemma FreeJobsAreClean(run: seq<Event>, j: JobId)
    requires j in After(run).pool.free
    ensures j in After(run).pool.jobs
    ensures var job := After(run).pool.jobs[j];
            job.httpAio == None && job.httpRes == None && job.msg == None && job.ctx == None
  {
    RunInv(run);
    assert Ready(After(run), j, OnFreelist);
  }

  // ---- HTTP aios ----

  datatype Answerer = Running(t: ThreadId) | InJob(j: JobId)

  predicate MustAnswer(s: State, x: Answerer, a: AioId) {
    match x
    case Running(t) => t in s.threads && AioOf(s.threads[t]) == Some(a)
    case InJob(j) => j in s.pool.jobs && j !in s.pool.free && s.pool.jobs[j].httpAio == Some(a)
  }

  /** An accepted aio is finished, or exactly one thread or job in use still has to answer it. */
  lemma AnsweredOnce(run: seq<Event>, a: AioId)
    ensures var s := After(run);
            && (a in s.http.finished ==> a in s.http.accepted)
            && (a in s.http.accepted && a !in s.http.finished <==> exists x :: MustAnswer(s, x, a))
            && (forall x, y :: MustAnswer(s, x, a) && MustAnswer(s, y, a) ==> x == y)
  {
    hide MsgInv, CtxInv, NetInv, PagesRight, Step;
    RunInv(run);
    var s := After(run);
    if a in s.http.accepted && a !in s.http.finished {
      match s.http.duty[a]
      case Local(t) => assert MustAnswer(s, Running(t), a);
      case Parked(j) =>
        assert Ready(s, j, s.pool.holder[j]);
        assert MustAnswer(s, InJob(j), a);
    }
    forall x | MustAnswer(s, x, a)
      ensures a in s.http.duty && s.http.duty[a] == match x case Running(t) => Local(t) case InJob(j) => Parked(j)
    {
      if x.InJob? {
        assert s.pool.jobs[x.j].httpAio.Some?;
      }
    }
  }

  lemma StepKeepsAnswers(s: State, e: Event, a: AioId)
    requires s.http.duty.Keys !! s.http.finished.Keys && a in s.http.finished
    ensures a in Step(s, e).http.finished && Step(s, e).http.finished[a] == s.http.finished[a]
  {
    if Enabled(s, e) && e.Run? && JobOf(s.threads[e.t]).Some? {
      SectionShape(s, e.t, JobOf(s.threads[e.t]).value, e.ok, e.id);
    }
  }

  lemma {:induction false} Extend(run: seq<Event>, more: seq<Event>)
    requires more != []
    ensures After(run + more) == Step(After(run + more[..|more| - 1]), more[|more| - 1])
  {
    hide Step;
    assert (run + more)[..|run + more| - 1] == run + more[..|more| - 1];
  }

  /** An answer once given is never replaced, however the run goes on. */
  lemma {:induction false} AnswersStand(run: seq<Event>, more: seq<Event>, a: AioId)
    requires a in After(run).http.finished
    ensures a in After(run + more).http.finished
    ensures After(run + more).http.finished[a] == After(run).http.finished[a]
  {
    if more == [] {
      assert run + more == run;
    } else {
      AnswersStand(run, more[..|more| - 1], a);
      Extend(run, more);
      RunInv(run + more[..|more| - 1]);
      StepKeepsAnswers(After(run + more[..|more| - 1]), more[|more| - 1], a);
    }
  }

  // ---- Requests ----

  /** Event `i` of the run is the arrival of a request with this body on HTTP aio `a`. */
  predicate Arrives(run: seq<Event>, i: int, a: AioId, body: Bytes) {
    && 0 <= i < |run| && Enabled(After(run[..i]), run[i])
    && run[i].Accept? && run[i].a == a && run[i].body == body
  }

  lemma AcceptedStays(s: State, e: Event)
    requires Enabled(s, e) && !e.Accept?
    ensures Step(s, e).http.accepted == s.http.accepted
  {
    hide JobSection;
    if e.Run? && JobOf(s.threads[e.t]).Some? {
      SectionShape(s, e.t, JobOf(s.threads[e.t]).value, e.ok, e.id);
    }
  }

  lemma ArrivesBefore(run: seq<Event>, i: int, a: AioId, body: Bytes)
    requires run != [] && i < |run| - 1
    ensures Arrives(run[..|run| - 1], i, a, body) <==> Arrives(run, i, a, body)
  {
    if 0 <= i { assert run[..|run| - 1][..i] == run[..i]; }
  }

  lemma {:induction false} AcceptedHasArrived(run: seq<Event>, a: AioId)
    requires a in After(run).http.accepted
    ensures exists i :: Arrives(run, i, a, After(run).http.accepted[a])
  {
    var n := |run| - 1;
    var s, body := After(run[..n]), After(run).http.accepted[a];
    if !Arrives(run, n, a, body) {
      if Enabled(s, run[n]) && !run[n].Accept? { AcceptedStays(s, run[n]); }
      AcceptedHasArrived(run[..n], a);
      var i :| Arrives(run[..n], i, a, body);
      ArrivesBefore(run, i, a, body);
    }
  }

  lemma {:induction false} ArrivedIsAccepted(run: seq<Event>, i: int, a: AioId, body: Bytes)
    requires Arrives(run, i, a, body)
    ensures a in After(run).http.accepted && After(run).http.accepted[a] == body
  {
    var n := |run| - 1;
    var s := After(run[..n]);
    if i < n {
      ArrivesBefore(run, i, a, body);
      ArrivedIsAccepted(run[..n], i, a, body);
      if Enabled(s, run[n]) && !run[n].Accept? { AcceptedStays(s, run[n]); }
    }
  }

  /** What is recorded as accepted, and with which body, is exactly what has arrived; no aio arrives twice. */
  lemma AcceptedIsArrived(run: seq<Event>, a: AioId, body: Bytes)
    ensures (a in After(run).http.accepted && After(run).http.accepted[a] == body)
            <==> exists i :: Arrives(run, i, a, body)
  {
    if i :| Arrives(run, i, a, body) {
      ArrivedIsAccepted(run, i, a, body);
    }
    if a in After(run).http.accepted && After(run).http.accepted[a] == body {
      AcceptedHasArrived(run, a);
    }
  }

  lemma AcceptedPage(run: seq<Event>, a: AioId)
    requires a in After(run).http.finished && After(run).http.finished[a].Page?
    ensures a in After(run).http.accepted
    ensures After(run).http.finished[a].body == Rot13.Rot13(After(run).http.accepted[a])
  {
    RunInv(run);
  }

  /** Whatever the interleaving and however jobs are reused, a page is the ROT13 of the body its aio arrived with. */
  lemma PagesAnswerTheirRequest(run: seq<Event>, a: AioId)
    requires a in After(run).http.finished && After(run).http.finished[a].Page?
    ensures exists i, body :: Arrives(run, i, a, body) && After(run).http.finished[a] == Page(Rot13.Rot13(body))
    ensures forall i, body :: Arrives(run, i, a, body) ==> After(run).http.finished[a] == Page(Rot13.Rot13(body))
  {
    hide Arrives;
    AcceptedPage(run, a);
    AcceptedHasArrived(run, a);
    forall i, body | Arrives(run, i, a, body) ensures After(run).http.finished[a] == Page(Rot13.Rot13(body)) {
      ArrivedIsAccepted(run, i, a, body);
    }
  }

  // ---- Messages ----

  /** No message is pointed at from two places, and no place points at a freed one. */
  lemma AtMostOneOwner(run: seq<Event>, p: Place, q: Place)
    requires var s := After(run); At(s.pool.jobs, s.net, p).Some?
    ensures var s := After(run);
            && At(s.pool.jobs, s.net, p).value in s.msgs.heap
            && (At(s.pool.jobs, s.net, p) == At(s.pool.jobs, s.net, q) ==> p == q)
  {
    hide HolderInv, DutyInv, CtxInv, NetInv, PhaseInv, PagesRight, Step;
    RunInv(run);
  }

  ghost predicate Lost(s: State, m: MsgId) {
    m in s.msgs.heap && forall p :: At(s.pool.jobs, s.net, p) != Some(m)
  }

  lemma LostIffNotAtOwner(s: State, m: MsgId)
    requires Inv(s)
    ensures Lost(s, m) <==> m in s.msgs.heap && At(s.pool.jobs, s.net, s.msgs.heap[m].owner) != Some(m)
  {
    hide HolderInv, DutyInv, CtxInv, NetInv, PhaseInv, PagesRight;
    if m in s.msgs.heap && !Lost(s, m) {
      var p :| At(s.pool.jobs, s.net, p) == Some(m);
    }
  }

  lemma LostIsFailed(s: State, m: MsgId)
    requires Inv(s) && Lost(s, m)
    ensures m in s.msgs.failed
  {
    LostIffNotAtOwner(s, m);
  }

  /** No thread runs and no operation is in progress. */
  predicate Unattended(s: State) { s.threads == map[] && s.pool.ops == map[] }

  /** At rest: the server is idle, too, and nothing is on its way to or from it. */
  predicate Quiet(s: State) { Unattended(s) && s.net.server == Idle && s.net.wire == map[] }

  lemma RestedJobs(s: State)
    requires Inv(s) && Unattended(s)
    ensures forall j :: j in s.pool.jobs ==> j in s.pool.free && Clean(s.msgs, s.pool.jobs[j])
    ensures forall c :: c !in s.net.open
    ensures forall a :: a !in s.http.duty
  {
    forall j | j in s.pool.jobs ensures j in s.pool.free && Clean(s.msgs, s.pool.jobs[j]) {
      assert Ready(s, j, s.pool.holder[j]);
    }
    forall c ensures c !in s.net.open {}
    forall a ensures a !in s.http.duty {}
  }

  /**
   When everything has come to rest, the live messages are exactly those whose send failed, and every aio is
   answered.
   */
  lemma LeaksAtRest(run: seq<Event>)
    requires Quiet(After(run))
    ensures forall m :: m in After(run).msgs.heap <==> m in After(run).msgs.failed
    ensures forall a :: a in After(run).http.accepted <==> a in After(run).http.finished
    ensures forall j :: j in After(run).pool.jobs <==> j in After(run).pool.free
  {
    RunInv(run);
    var s := After(run);
    RestedJobs(s);
    forall m | m in s.msgs.heap ensures m in s.msgs.failed {
      var p := s.msgs.heap[m].owner;
      assert m in s.msgs.failed || At(s.pool.jobs, s.net, p) == Some(m);
      assert p.JobSlot? && At(s.pool.jobs, s.net, p) == Some(m) ==> Clean(s.msgs, s.pool.jobs[p.j]);
    }
    forall a | a in s.http.accepted ensures a in s.http.finished {
      assert a !in s.http.duty;
    }
    forall j | j in s.pool.free ensures j in s.pool.jobs {
      assert j in s.pool.holder;
    }
  }

  // ---- Exactly which step loses a message ----

  /** The section that overwrites an aio slot which still holds `m`. */
  predicate Overwrites(s: State, e: Event, m: MsgId) {
    && e.Run? && Enabled(s, e) && s.threads[e.t].Load?
    && s.threads[e.t].job in s.pool.jobs && s.pool.jobs[s.threads[e.t].job].slot == Holds(m)
  }

  lemma LoadSetsSlot(s: State, t: ThreadId, j: JobId, data: Bytes)
    requires MsgInv(s.msgs, s.pool.jobs, s.net) && AboutTo(s, t, j, Load(j, data))
    ensures s.pool.jobs[j].msg.Some? && s.pool.jobs[j].msg.value !in s.msgs.failed
    ensures DoLoad(s, t, j, s.pool.jobs[j], data).pool.jobs[j].slot == Holds(s.pool.jobs[j].msg.value)
  {
  }

  /** A callback that goes on finds no failed message in its slot. */
  lemma DispatchSlot(s: State, t: ThreadId, j: JobId)
    requires AboutTo(s, t, j, Dispatch(j)) && s.pool.jobs[j].succeeded
    ensures DoDispatch(s, t, j, s.pool.jobs[j]).pool.jobs[j].slot == Empty
    ensures s.pool.jobs[j].slot.Holds? ==> s.pool.jobs[j].slot.m !in s.msgs.failed
  {
  }

  lemma SlotsDiffer(s: State, j: JobId, k: JobId, m: MsgId)
    requires MsgInv(s.msgs, s.pool.jobs, s.net) && j in s.pool.jobs && k in s.pool.jobs
    requires s.pool.jobs[j].slot == Holds(m) && s.pool.jobs[k].slot == Holds(m)
    ensures j == k
  {
  }

  lemma LoadSlotStays(s: State, t: ThreadId, ok: bool, id: int, k: JobId, data: Bytes, j: JobId, m: MsgId)
    requires MsgInv(s.msgs, s.pool.jobs, s.net) && AboutTo(s, t, k, Load(k, data)) && Enabled(s, Run(t, ok, id))
    requires j in s.pool.jobs && m in s.msgs.failed
    ensures SlotFate(s, Run(t, ok, id), j, m)
  {
    LoadSetsSlot(s, t, k, data);
    LoadShape(s, t, k, data);
    hide MsgInv, JobReady, DoLoad;
    assert Step(s, Run(t, ok, id)) == DoLoad(s, t, k, s.pool.jobs[k], data);
    if s.pool.jobs[j].slot == Holds(m) && s.pool.jobs[k].slot == Holds(m) {
      SlotsDiffer(s, j, k, m);
    }
  }

  lemma DispatchSlotStays(s: State, t: ThreadId, ok: bool, id: int, k: JobId, j: JobId, m: MsgId)
    requires AboutTo(s, t, k, Dispatch(k)) && s.pool.jobs[k].succeeded && Enabled(s, Run(t, ok, id))
    requires j in s.pool.jobs && m in s.msgs.failed
    ensures SlotFate(s, Run(t, ok, id), j, m)
  {
    hide JobReady, DoDispatch;
    DispatchSlot(s, t, k);
    SectionShape(s, t, k, ok, id);
    assert Step(s, Run(t, ok, id)) == DoDispatch(s, t, k, s.pool.jobs[k]);
  }

  lemma HeldSlotStays(s: State, t: ThreadId, ok: bool, id: int, k: JobId, j: JobId, m: MsgId)
    requires Inv(s) && j in s.pool.jobs && m in s.msgs.failed
    requires Enabled(s, Run(t, ok, id)) && JobOf(s.threads[t]) == Some(k)
    ensures SlotFate(s, Run(t, ok, id), j, m)
  {
    hide HolderInv, DutyInv, MsgInv, CtxInv, NetInv, PhaseInv, JobReady, Section;
    HeldReady(s, t, k);
    if s.threads[t].Load? {
      LoadSlotStays(s, t, ok, id, k, s.threads[t].data, j, m);
    } else if s.threads[t].Dispatch? && s.pool.jobs[k].succeeded {
      DispatchSlotStays(s, t, ok, id, k, j, m);
    } else {
      SectionShape(s, t, k, ok, id);
      assert KeepsSlot(s, t, k);
    }
  }

  predicate SlotFate(s: State, e: Event, j: JobId, m: MsgId) {
    && j in s.pool.jobs && j in Step(s, e).pool.jobs
    && (Step(s, e).pool.jobs[j].slot == Holds(m) <==> s.pool.jobs[j].slot == Holds(m) && !Overwrites(s, e, m))
  }

  lemma SentSlotStays(s: State, k: JobId, ok: bool, j: JobId, m: MsgId)
    requires InProgress(s.pool, k, SendReq) && Sending(s, s.pool.jobs[k]) && !s.exited
    requires s.pool.jobs[k].slot.m in s.msgs.heap
    requires j in s.pool.jobs && m in s.msgs.failed
    ensures SlotFate(s, SendDone(k, ok), j, m)
  {
  }

  lemma ReceivedSlotStays(s: State, k: JobId, ok: bool, j: JobId, m: MsgId)
    requires Inv(s) && Enabled(s, RecvDone(k, ok)) && j in s.pool.jobs && m in s.msgs.failed
    ensures SlotFate(s, RecvDone(k, ok), j, m)
  {
    hide HolderInv, DutyInv, MsgInv, CtxInv, NetInv, PhaseInv, PagesRight;
    OpIsReady(s, k);
    if ok {
      ServerFacts(s);
      KeptReply(s, s.pool.jobs[k].ctx.value);
    }
  }

  lemma CompletedSlotStays(s: State, e: Event, j: JobId, m: MsgId)
    requires Inv(s) && j in s.pool.jobs && m in s.msgs.failed && Enabled(s, e) && (e.SendDone? || e.RecvDone?)
    ensures SlotFate(s, e, j, m)
  {
    hide HolderInv, DutyInv, MsgInv, CtxInv, NetInv, PhaseInv, PagesRight, SlotFate;
    if e.SendDone? {
      SendingReady(s, e.j);
      HeldMsg(s, e.j);
      SentSlotStays(s, e.j, e.ok, j, m);
    } else {
      ReceivedSlotStays(s, e.j, e.ok, j, m);
    }
  }

  lemma IdleSlotStays(s: State, t: ThreadId, ok: bool, id: int, j: JobId, m: MsgId)
    requires Enabled(s, Run(t, ok, id)) && JobOf(s.threads[t]) == None && j in s.pool.jobs
    ensures SlotFate(s, Run(t, ok, id), j, m)
  {
    hide JobSection;
  }

  /** A slot that holds a message whose send failed keeps it until the next request of the job fills the slot. */
  lemma FailedSlotStays(s: State, e: Event, j: JobId, m: MsgId)
    requires Inv(s) && j in s.pool.jobs && m in s.msgs.failed
    ensures SlotFate(s, e, j, m)
  {
    hide Section, HolderInv, DutyInv, MsgInv, CtxInv, NetInv, PhaseInv, PagesRight;
    if Enabled(s, e) {
      if e.Run? && JobOf(s.threads[e.t]).Some? {
        HeldSlotStays(s, e.t, e.ok, e.id, JobOf(s.threads[e.t]).value, j, m);
      } else if e.Run? {
        IdleSlotStays(s, e.t, e.ok, e.id, j, m);
      } else if e.SendDone? || e.RecvDone? {
        CompletedSlotStays(s, e, j, m);
      }
    }
  }

  lemma SectionFailed(s: State, t: ThreadId, ok: bool, id: int)
    requires t in s.threads
    ensures Section(s, t, ok, id).msgs.failed == s.msgs.failed
  {
    hide JobSection;
    if JobOf(s.threads[t]).Some? {
      SectionShape(s, t, JobOf(s.threads[t]).value, ok, id);
    }
  }

  /** The message whose REQ send an event reports as failed. */
  function FailedBy(s: State, e: Event): Option<MsgId> {
    if Enabled(s, e) && e.SendDone? && !e.ok && s.pool.jobs[e.j].slot.Holds? then Some(s.pool.jobs[e.j].slot.m)
    else None
  }

  lemma SendingReady(s: State, j: JobId)
    requires Inv(s) && InProgress(s.pool, j, SendReq)
    ensures Sending(s, s.pool.jobs[j])
  {
    OpIsReady(s, j);
  }

  lemma StepFailed(s: State, e: Event, m: MsgId)
    requires Inv(s)
    ensures m in Step(s, e).msgs.failed <==> m in s.msgs.failed || FailedBy(s, e) == Some(m)
  {
    hide HolderInv, DutyInv, MsgInv, CtxInv, NetInv, PhaseInv, PagesRight, Section;
    if Enabled(s, e) {
      if e.SendDone? { SendingReady(s, e.j); }
      if e.Run? { SectionFailed(s, e.t, e.ok, e.id); }
    }
  }

  /** Event `i` of the run reported that the REQ send of `m` failed. */
  predicate Reports(run: seq<Event>, i: int, m: MsgId) {
    0 <= i < |run| && FailedBy(After(run[..i]), run[i]) == Some(m)
  }

  lemma ReportsBefore(run: seq<Event>, i: int, m: MsgId)
    requires run != [] && i < |run| - 1
    ensures Reports(run[..|run| - 1], i, m) <==> Reports(run, i, m)
  {
    if 0 <= i { assert run[..|run| - 1][..i] == run[..i]; }
  }

  lemma {:induction false} FailedWasReported(run: seq<Event>, m: MsgId)
    requires m in After(run).msgs.failed
    ensures exists i :: Reports(run, i, m)
  {
    hide FailedBy;
    var n := |run| - 1;
    RunInv(run[..n]);
    StepFailed(After(run[..n]), run[n], m);
    if m in After(run[..n]).msgs.failed {
      FailedWasReported(run[..n], m);
      var i :| Reports(run[..n], i, m);
      ReportsBefore(run, i, m);
    } else {
      assert Reports(run, n, m);
    }
  }

  lemma {:induction false} ReportedIsFailed(run: seq<Event>, i: int, m: MsgId)
    requires Reports(run, i, m)
    ensures m in After(run).msgs.failed
  {
    hide FailedBy;
    var n := |run| - 1;
    RunInv(run[..n]);
    if i < n {
      ReportsBefore(run, i, m);
      ReportedIsFailed(run[..n], i, m);
    }
    StepFailed(After(run[..n]), run[n], m);
  }

  /** `failed` holds exactly the messages whose send some event of the run reported as failed. */
  lemma FailedMeansFailed(run: seq<Event>, m: MsgId)
    ensures m in After(run).msgs.failed <==> exists i :: Reports(run, i, m)
  {
    if i :| Reports(run, i, m) {
      ReportedIsFailed(run, i, m);
    }
    if m in After(run).msgs.failed {
      FailedWasReported(run, m);
    }
  }

  /** Only a message whose REQ send some event of the run reported as failed can be lost. */
  lemma OnlyFailedSendsAreLost(run: seq<Event>, m: MsgId)
    requires Lost(After(run), m)
    ensures exists i :: Reports(run, i, m)
  {
    RunInv(run);
    LostIsFailed(After(run), m);
    FailedMeansFailed(run, m);
  }

  /** Runs in which no REQ send fails lose no message. */
  lemma NoFailedSendNoLoss(run: seq<Event>, m: MsgId)
    requires forall e :: e in run && e.SendDone? ==> e.ok
    ensures !Lost(After(run), m)
  {
    forall i ensures !Reports(run, i, m) {
      if 0 <= i < |run| { assert run[i] in run; }
    }
    if Lost(After(run), m) {
      OnlyFailedSendsAreLost(run, m);
    }
  }

  lemma NewJobsAreEmpty(s: State, e: Event, j: JobId)
    requires j in Step(s, e).pool.jobs && j !in s.pool.jobs
    ensures Step(s, e).pool.jobs[j].slot == Empty
  {
    hide JobSection;
    if e.Run? && JobOf(s.threads[e.t]).Some? {
      SectionShape(s, e.t, JobOf(s.threads[e.t]).value, e.ok, e.id);
    }
  }

  lemma FailedLost(s: State, m: MsgId)
    requires Inv(s) && m in s.msgs.failed
    ensures Lost(s, m) <==> forall j :: j in s.pool.jobs ==> s.pool.jobs[j].slot != Holds(m)
  {
    LostIffNotAtOwner(s, m);
  }

  lemma LossOfFailed(s: State, e: Event, m: MsgId)
    requires Inv(s) && Inv(Step(s, e)) && m in s.msgs.failed && m in Step(s, e).msgs.failed
    ensures Lost(Step(s, e), m) <==> Lost(s, m) || Overwrites(s, e, m)
  {
    var s' := Step(s, e);
    FailedLost(s, m);
    FailedLost(s', m);
    forall j | j in s'.pool.jobs
      ensures s'.pool.jobs[j].slot == Holds(m) <==>
              j in s.pool.jobs && s.pool.jobs[j].slot == Holds(m) && !Overwrites(s, e, m)
    {
      if j in s.pool.jobs { FailedSlotStays(s, e, j, m); } else { NewJobsAreEmpty(s, e, j); }
    }
    forall j | j in s.pool.jobs ensures j in s'.pool.jobs {
      FailedSlotStays(s, e, j, m);
    }
  }

  lemma UnfailedNotOverwritten(s: State, e: Event, m: MsgId)
    requires Inv(s) && m !in s.msgs.failed
    ensures !Overwrites(s, e, m)
  {
    if e.Run? && Enabled(s, e) && s.threads[e.t].Load? {
      assert Ready(s, s.threads[e.t].job, ByThread(e.t));
    }
  }

  lemma UnfailedNotLost(s: State, m: MsgId)
    requires Inv(s) && m !in s.msgs.failed
    ensures !Lost(s, m)
  {
    LostIffNotAtOwner(s, m);
  }

  /** A message whose send has just failed is still in its slot. */
  lemma JustFailedNotLost(s: State, e: Event, m: MsgId)
    requires Inv(s) && Inv(Step(s, e)) && m !in s.msgs.failed && m in Step(s, e).msgs.failed
    ensures !Lost(Step(s, e), m)
  {
    hide HolderInv, DutyInv, MsgInv, CtxInv, NetInv, PhaseInv, PagesRight, Section, Lost;
    StepFailed(s, e, m);
    assert Step(s, e).pool.jobs[e.j].slot == Holds(m);
    FailedLost(Step(s, e), m);
  }

  lemma LossOfUnfailed(s: State, e: Event, m: MsgId)
    requires Inv(s) && Inv(Step(s, e)) && m !in s.msgs.failed
    ensures !Lost(Step(s, e), m) && !Lost(s, m) && !Overwrites(s, e, m)
  {
    UnfailedNotOverwritten(s, e, m);
    UnfailedNotLost(s, m);
    if m in Step(s, e).msgs.failed {
      JustFailedNotLost(s, e, m);
    } else {
      UnfailedNotLost(Step(s, e), m);
    }
  }

  /** A step loses a message exactly when it fills an aio slot that still holds that message. */
  lemma LossExactly(run: seq<Event>, e: Event, m: MsgId)
    ensures Lost(After(run + [e]), m) <==> Lost(After(run), m) || Overwrites(After(run), e, m)
  {
    var s := After(run);
    Extend(run, [e]);
    assert run + [e][..0] == run;
    RunInv(run);
    StepInv(s, e);
    StepFailed(s, e, m);
    if m in s.msgs.failed {
      LossOfFailed(s, e, m);
    } else {
      LossOfUnfailed(s, e, m);
    }
  }

  // ---- How many jobs are ever allocated ----

  function Allocating(s: State): set<ThreadId> {
    set t | t in s.threads && s.threads[t].Alloc?
  }

  function Free(s: State): set<JobId> {
    set j | j in s.pool.free
  }

  /** Jobs allocated so far, counting the allocations under way. */
  function Allocated(s: State): nat {
    |s.pool.jobs.Keys| + |Allocating(s)|
  }

  /** Jobs between the locked pop and the locked push. */
  function CheckedOut(s: State): nat {
    |s.pool.jobs.Keys - Free(s)| + |Allocating(s)|
  }

  function Peak(run: seq<Event>): nat {
    if run == [] then CheckedOut(INIT)
    else
      var before, now := Peak(run[..|run| - 1]), CheckedOut(After(run));
      if now > before then now else before
  }

  lemma {:induction false} DistinctCount(s: seq<JobId>)
    requires forall i, k :: 0 <= i < k < |s| ==> s[i] != s[k]
    ensures |set j | j in s| == |s|
  {
    if s != [] {
      var rest := s[1..];
      DistinctCount(rest);
      assert (set j | j in s) == (set j | j in rest) + {s[0]};
    }
  }

  /** Allocated jobs are the free ones and the checked-out ones. */
  lemma FreeAndCheckedOut(s: State)
    requires Inv(s)
    ensures Allocated(s) == |s.pool.free| + CheckedOut(s)
  {
    DistinctCount(s.pool.free);
    assert Free(s) <= s.pool.jobs.Keys by {
      forall j | j in s.pool.free ensures j in s.pool.jobs {
        assert j in s.pool.holder;
      }
    }
  }

  lemma SameAllocating(s: State, s': State)
    requires forall u :: (u in s.threads && s.threads[u].Alloc?) <==> (u in s'.threads && s'.threads[u].Alloc?)
    ensures Allocating(s') == Allocating(s)
  {
    var u := Apart(Allocating(s'), Allocating(s), 0);
  }

  lemma SameJobs(p: Pool, p': Pool)
    requires forall j :: j in p'.jobs <==> j in p.jobs
    ensures p'.jobs.Keys == p.jobs.Keys
  {
    var j := Apart(p'.jobs.Keys, p.jobs.Keys, 0);
  }

  lemma HeldAllocates(s: State, t: ThreadId, j: JobId, ok: bool, id: int)
    requires t in s.threads && JobOf(s.threads[t]) == Some(j)
    ensures var s' := Section(s, t, ok, id);
            Allocating(s') == Allocating(s) && s'.pool.jobs.Keys == s.pool.jobs.Keys
  {
    hide Section, JobSection;
    SectionShape(s, t, j, ok, id);
    SameAllocating(s, Section(s, t, ok, id));
    SameJobs(s.pool, Section(s, t, ok, id).pool);
  }

  lemma GetAllocates(s: State, t: ThreadId, a: AioId)
    requires t in s.threads && s.threads[t] == Get(a)
    ensures Allocated(DoGet(s, t, a)) == if s.pool.free == [] then Allocated(s) + 1 else Allocated(s)
  {
    assert Allocating(DoGet(s, t, a)) == if s.pool.free == [] then Allocating(s) + {t} else Allocating(s);
  }

  lemma StopsAllocating(s: State, s': State, t: ThreadId)
    requires t in s.threads && s.threads[t].Alloc? && t in s'.threads && !s'.threads[t].Alloc?
    requires s'.threads == s.threads[t := s'.threads[t]]
    ensures |Allocating(s')| == |Allocating(s)| - 1
  {
    var u := Apart(Allocating(s'), Allocating(s) - {t}, 0);
  }

  lemma AllocAllocates(s: State, t: ThreadId, a: AioId, j: JobId)
    requires t in s.threads && s.threads[t] == Alloc(a) && j !in s.pool.jobs
    ensures Allocated(DoAlloc(s, t, a, true, j)) == Allocated(s)
  {
    var s' := DoAlloc(s, t, a, true, j);
    assert s'.threads == s.threads[t := MakeRes(a, j)] && s'.pool.jobs == s.pool.jobs[j := NEW_JOB];
    StopsAllocating(s, s', t);
    PutSize(s.pool.jobs, j, NEW_JOB);
  }

  lemma LeavingAllocates(s: State, t: ThreadId, h: Http)
    requires t in s.threads && !s.threads[t].Alloc?
    ensures Allocated(s.(threads := s.threads - {t}, http := h)) == Allocated(s)
  {
    assert Allocating(s.(threads := s.threads - {t}, http := h)) == Allocating(s);
  }

  lemma IdleAllocates(s: State, t: ThreadId, ok: bool, id: int)
    requires t in s.threads && JobOf(s.threads[t]) == None && (s.threads[t].Alloc? ==> id !in s.pool.jobs)
    ensures var s' := Section(s, t, ok, id);
            Allocated(s') == if s.threads[t].Get? && s.pool.free == [] then Allocated(s) + 1 else Allocated(s)
  {
    match s.threads[t]
    case Get(a) => GetAllocates(s, t, a);
    case Alloc(a) => if ok { AllocAllocates(s, t, a, id); } else { assert Allocating(Exit(s)) == Allocating(s); }
    case Refuse(a) => LeavingAllocates(s, t, DoRefuse(s, t, a).http);
    case Releasing => LeavingAllocates(s, t, s.http);
  }

  lemma OutsideAllocates(s: State, e: Event)
    requires Enabled(s, e) && !e.Run?
    ensures Allocating(Step(s, e)) == Allocating(s) && Step(s, e).pool.jobs.Keys == s.pool.jobs.Keys
  {
  }

  /** A job is allocated only when the freelist is empty. */
  lemma StepAllocated(s: State, e: Event)
    ensures Allocated(Step(s, e)) == Allocated(s) ||
            (Allocated(Step(s, e)) == Allocated(s) + 1 && Step(s, e).pool.free == [])
  {
    if Enabled(s, e) {
      if !e.Run? {
        OutsideAllocates(s, e);
      } else if JobOf(s.threads[e.t]).Some? {
        HeldAllocates(s, e.t, JobOf(s.threads[e.t]).value, e.ok, e.id);
      } else {
        IdleAllocates(s, e.t, e.ok, e.id);
      }
    }
  }

  /** Over every run, the jobs ever allocated are as many as were checked out at the busiest moment. */
  lemma {:induction false} AllocatedIsPeak(run: seq<Event>)
    ensures Allocated(After(run)) == Peak(run)
  {
    RunInv(run);
    FreeAndCheckedOut(After(run));
    if run != [] {
      var before := run[..|run| - 1];
      AllocatedIsPeak(before);
      RunInv(before);
      StepAllocated(After(before), run[|run| - 1]);
    }
  }
}
