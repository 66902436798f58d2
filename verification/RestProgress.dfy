/**
 Every request is answered: as long as no call fails for a request, something can happen until its page is
 given, and from every state that has not exited all answers can still be reached.
 */
module RestProgress {
  import opened Bytes
  import opened Collections
  import opened RestProxy
  import opened RestInvariant
  import opened RestSafety
  import opened RestTheorems
  import opened RestWork
  import opened RestAnswers
  import Rot13

  /** An outcome that is a failure: of a library call, of an operation, or of the REP server. */
  predicate Fails(e: Event) {
    match e
    case Run(_, ok, _) => !ok
    case SendDone(_, ok) => !ok
    case RecvDone(_, ok) => !ok
    case ServerRecv(_, ok) => !ok
    case ServerSend(ok) => !ok
    case _ => false
  }

  /** Something that happens without a new request and without a failure. */
  predicate GoesOn(s: State, e: Event) {
    Enabled(s, e) && !e.Accept? && !Fails(e)
  }

  /** Until the program exits, requests arrive at any time, and every call and operation may succeed or fail. */
  lemma NothingForbidden(s: State, t: ThreadId, u: ThreadId, a: AioId, body: Bytes, j: JobId, c: CtxId, ok: bool,
                         id: int)
    requires !s.exited && t in s.threads && u !in s.threads
    ensures a !in s.http.accepted && |body| <= 128 * 1024 ==> Enabled(s, Accept(u, a, body))
    ensures id !in s.pool.jobs && id !in s.net.used && id !in s.msgs.heap ==> Enabled(s, Run(t, ok, id))
    ensures j in s.pool.jobs && j in s.pool.ops && s.pool.ops[j] == Op(SendReq, false) ==> Enabled(s, SendDone(j, ok))
    ensures j in s.pool.jobs && j in s.pool.ops && s.pool.ops[j] == Op(RecvRep, false) ==>
              Enabled(s, RecvDone(j, false))
    ensures j in s.pool.ops && s.pool.ops[j].completed ==> Enabled(s, Callback(u, j))
    ensures s.net.server == Idle && c in s.net.wire && s.net.wire[c].Request? ==> Enabled(s, ServerRecv(c, ok))
    ensures s.net.server.Turned? ==> Enabled(s, ServerSend(ok))
    ensures c in s.net.wire && s.net.wire[c].Request? && c !in s.net.open ==> Enabled(s, Lapse(c))
  {
  }

  // ---- Something can happen until everything has come to rest ----

  lemma {:induction false} FreshFor(used: set<int>) returns (x: int)
    ensures forall y :: y in used ==> y < x
  {
    if y :| y in used {
      x := FreshFor(used - {y});
      assert forall z :: z in used && z != y ==> z in used - {y};
      x := if y < x then x else y + 1;
    } else {
      x := 0;
    }
  }

  lemma ThreadGoesOn(s: State, t: ThreadId) returns (e: Event)
    requires !s.exited && t in s.threads
    ensures GoesOn(s, e)
  {
    var used := (set j | j in s.pool.jobs) + s.net.used + (set m | m in s.msgs.heap);
    var id := FreshFor(used);
    assert id !in used;
    return Run(t, true, id);
  }

  /** A request or reply on its way moves on to its delivery, which the job that asked is there to take. */
  lemma PendingGoesOn(s: State, j: JobId, c: CtxId) returns (e: Event)
    requires !s.exited && InProgress(s.pool, j, RecvRep) && s.pool.jobs[j].ctx == Some(c) && Pending(s.net, c)
    ensures GoesOn(s, e)
  {
    if s.net.server.Got? {
      return ServerTurn;
    } else if s.net.server.Turned? {
      return ServerSend(true);
    }
    return if s.net.wire[c].Answer? then RecvDone(j, true) else ServerRecv(c, true);
  }

  lemma OpGoesOn(s: State, j: JobId) returns (e: Event)
    requires Inv(s) && !s.exited && j in s.pool.ops
    ensures GoesOn(s, e)
  {
    hide HolderInv, DutyInv, MsgInv, CtxInv, NetInv, PhaseInv, PagesRight;
    OpIsReady(s, j);
    if s.pool.ops[j].completed {
      var used := set t | t in s.threads;
      var t := FreshFor(used);
      assert t !in used;
      return Callback(t, j);
    } else if s.pool.ops[j].kind == SendReq {
      return SendDone(j, true);
    }
    e := PendingGoesOn(s, j, s.pool.jobs[j].ctx.value);
  }

  lemma ServerGoesOn(s: State) returns (e: Event)
    requires Inv(s) && !s.exited && Unattended(s) && (s.net.server != Idle || s.net.wire != map[])
    ensures GoesOn(s, e)
  {
    if s.net.server.Got? {
      return ServerTurn;
    } else if s.net.server.Turned? {
      return ServerSend(true);
    }
    var c := AnyKey(s.net.wire, 0);
    RestedJobs(s);
    return ServerRecv(c, true);
  }

  /** A state that has not exited is at rest or can go on without a new request and without a failure. */
  lemma NotStuck(s: State) returns (e: Event)
    requires Inv(s) && !s.exited
    ensures Quiet(s) || GoesOn(s, e)
  {
    hide HolderInv, DutyInv, MsgInv, CtxInv, NetInv, PhaseInv, PagesRight, GoesOn;
    var t, j := AnyKey(s.threads, 0), AnyKey(s.pool.ops, 0);
    if t in s.threads {
      e := ThreadGoesOn(s, t);
    } else if j in s.pool.ops {
      e := OpGoesOn(s, j);
    } else if !Quiet(s) {
      e := ServerGoesOn(s);
    } else {
      e := ServerTurn;
    }
  }

  /** A run that can go on with failures or new requests only has exited or has answered every request. */
  lemma EveryRequestAnswered(run: seq<Event>)
    requires forall e: Event :: !GoesOn(After(run), e)
    ensures After(run).exited || forall a :: a in After(run).http.accepted <==> a in After(run).http.finished
  {
    RunInv(run);
    if !After(run).exited {
      var e := NotStuck(After(run));
      LeaksAtRest(run);
    }
  }

  // ---- Requests nothing failed for ----

  /**
   When a run that has not exited can go on with failures or new requests only, a request none of whose own
   calls and operations failed has its page, whatever failed for others.
   */
  lemma UnharmedGetsItsPage(run: seq<Event>, i: int, a: AioId, body: Bytes)
    requires !After(run).exited && forall e: Event :: !GoesOn(After(run), e)
    requires Arrives(run, i, a, body) && forall k, f :: !FailsFor(run, k, a, f)
    ensures a in After(run).http.finished && After(run).http.finished[a] == Page(Rot13.Rot13(body))
  {
    hide Arrives, FailsFor;
    ArrivedIsAccepted(run, i, a, body);
    EveryRequestAnswered(run);
    AnswerIsExplained(run, a);
    AcceptedPage(run, a);
  }

  lemma TroubleIsFailure(s: State, e: Event, a: AioId)
    ensures Trouble(s, e, a).Some? || Ends(s, e) ==> Fails(e)
  {
  }

  /** Without failures the program does not exit, and nothing fails for any request. */
  lemma NothingFailed(run: seq<Event>, a: AioId)
    requires forall e :: e in run ==> !Fails(e)
    ensures !After(run).exited && forall k, f :: !FailsFor(run, k, a, f)
  {
    hide Trouble, Ends, Fails;
    ExitedIff(run);
    forall k | 0 <= k < |run| ensures Trouble(After(run[..k]), run[k], a) == None && !Ends(After(run[..k]), run[k]) {
      assert run[k] in run;
      TroubleIsFailure(After(run[..k]), run[k], a);
    }
  }

  lemma FailureFreePage(run: seq<Event>, a: AioId)
    requires (forall e :: e in run ==> !Fails(e)) && a in After(run).http.finished
    ensures After(run).http.finished[a].Page?
  {
    hide After, FailsFor;
    NothingFailed(run, a);
    AnswerIsExplained(run, a);
  }

  /** A run without failures that can go on with failures or new requests only has given every request its page. */
  lemma EveryRequestGetsItsPage(run: seq<Event>, i: int, a: AioId, body: Bytes)
    requires forall e :: e in run ==> !Fails(e)
    requires forall e: Event :: !GoesOn(After(run), e)
    requires Arrives(run, i, a, body)
    ensures a in After(run).http.finished && After(run).http.finished[a] == Page(Rot13.Rot13(body))
  {
    NothingFailed(run, a);
    UnharmedGetsItsPage(run, i, a, body);
  }

  // ---- Every run can be finished ----

  lemma WithoutFailureNoExit(s: State, e: Event)
    requires Inv(s) && GoesOn(s, e)
    ensures !Step(s, e).exited
  {
    hide Inv, Step;
    ExitsIff(s, e);
  }

  lemma {:induction false} ExtendBy(run: seq<Event>, e: Event)
    ensures After(run + [e]) == Step(After(run), e)
  {
    assert (run + [e])[..|run|] == run;
  }

  /** However a run went, if it has not exited it can come to rest without a new request and without a failure. */
  lemma {:induction false} CanComeToRest(run: seq<Event>) returns (more: seq<Event>)
    requires !After(run).exited
    ensures forall e :: e in more ==> !e.Accept? && !Fails(e)
    ensures !After(run + more).exited && Quiet(After(run + more))
    ensures After(run + more).http.accepted == After(run).http.accepted
    decreases Work(After(run))
  {
    hide Inv, Work, Quiet, Step;
    RunInv(run);
    var s := After(run);
    var e := NotStuck(s);
    if Quiet(s) {
      more := [];
      assert run + more == run;
    } else {
      WithoutFailureNoExit(s, e);
      WorkDecreases(s, e);
      CanHappenHasWork(s, e);
      AcceptedStays(s, e);
      ExtendBy(run, e);
      var rest := CanComeToRest(run + [e]);
      more := [e] + rest;
      assert run + more == run + [e] + rest;
    }
  }

  /** A run without failures can be continued, without a new request, so that every request gets its page. */
  lemma PagesCanBeReached(run: seq<Event>) returns (more: seq<Event>)
    requires forall e :: e in run ==> !Fails(e)
    ensures forall e :: e in more ==> !e.Accept? && !Fails(e)
    ensures var finished := After(run + more).http.finished;
            forall i, a, body :: Arrives(run, i, a, body) ==> a in finished && finished[a] == Page(Rot13.Rot13(body))
  {
    hide Arrives;
    NothingFailed(run, 0);
    more := CanComeToRest(run);
    LeaksAtRest(run + more);
    forall i, a, body | Arrives(run, i, a, body)
      ensures a in After(run + more).http.finished && After(run + more).http.finished[a] == Page(Rot13.Rot13(body))
    {
      ArrivedIsAccepted(run, i, a, body);
      FailureFreePage(run + more, a);
      AcceptedPage(run + more, a);
    }
  }

  /** From the start, a request of up to 128 KiB can arrive and be answered with the ROT13 of its body. */
  lemma OnePage(a: AioId, body: Bytes) returns (run: seq<Event>)
    requires |body| <= 128 * 1024
    ensures a in After(run).http.finished && After(run).http.finished[a] == Page(Rot13.Rot13(body))
  {
    var first := [Accept(0, a, body)];
    assert first[..0] == [] && After([]) == INIT;
    assert Arrives(first, 0, a, body);
    var more := PagesCanBeReached(first);
    run := first + more;
  }
}
