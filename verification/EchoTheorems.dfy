/** What the two echo servers guarantee over every run, for any number of work items. */
module EchoTheorems {
  import opened Bytes
  import opened EchoSpec
  import opened EchoServer
  import opened EchoSafety

  lemma StepInv(s: State, e: Event)
    requires Inv(s)
    ensures Inv(Step(s, e))
  {
    hide Inv;
    if Enabled(s, e) {
      match e
      case Tick(d) => TickInv(s, d);
      case Launch => LaunchInv(s);
      case Run(t) =>
        if s.threads[t].Enter? {
          EnterInv(s, t, s.threads[t].i);
        } else if s.threads[t].Start? {
          StartInv(s, t, s.threads[t].i, s.threads[t].next);
        } else {
          ReturnInv(s, t);
        }
      case RecvDone(i, ok, route, body) => RecvDoneInv(s, i, ok, route, body);
      case SleepDone(i, ok) => SleepDoneInv(s, i, ok);
      case SendDone(i, ok) => SendDoneInv(s, i, ok);
      case CallBack(t, i) => CallBackInv(s, t, i);
    }
  }

  predicate Configured(s: State, g: Config) {
    s.n == g.n && s.transport == g.transport && s.echo.endless == g.endless
  }

  lemma StepKeepsConfig(s: State, e: Event, g: Config)
    requires Configured(s, g)
    ensures Configured(Step(s, e), g)
  {
    hide Callback, OpFor, RouteOf, SleepOver;
  }

  lemma {:induction false} RunInv(g: Config, run: seq<Event>)
    ensures Inv(After(g, run)) && Configured(After(g, run), g)
  {
    hide Inv, Step;
    if run == [] {
      BeginInv(g);
    } else {
      RunInv(g, run[..|run| - 1]);
      StepInv(After(g, run[..|run| - 1]), run[|run| - 1]);
      StepKeepsConfig(After(g, run[..|run| - 1]), run[|run| - 1], g);
    }
  }

  // ---- One operation per item ----

  datatype User = Worker(t: int) | Library

  predicate Uses(s: State, u: User, i: int) {
    match u
    case Worker(t) => t in s.threads && ItemOf(s.threads[t]) == Some(i)
    case Library => i in s.items.ops
  }

  /** What an item's state says about the operation in progress or about to be started on it. */
  predicate KindMatches(s: State, u: User, i: int)
    requires i in s.items.works && Uses(s, u, i)
  {
    var state := s.items.works[i].state;
    match u
    case Library =>
      (match s.items.ops[i]
       case Receiving(_) => state == RECV
       case Sleeping(_, _, _) => state == WAIT
       case Sending(_) => state == SEND)
    case Worker(t) =>
      match s.threads[t]
      case Start(_, StartRecv) => state == RECV
      case Start(_, StartSleep(_)) => state == WAIT
      case Start(_, StartSend) => state == SEND
      case _ => state == INIT || state == RECV || state == WAIT || state == SEND
  }

  /**
   Every started item is with exactly one thread or operation, of the kind its state names; the others are
   untouched.
   */
  lemma OneOperation(g: Config, run: seq<Event>, i: int)
    requires 0 <= i < g.n
    ensures var s := After(g, run);
            && !s.fault
            && i in s.items.works
            && (i < s.items.started <==> exists u :: Uses(s, u, i))
            && (forall u, v :: Uses(s, u, i) && Uses(s, v, i) ==> u == v)
            && (forall u :: Uses(s, u, i) ==> KindMatches(s, u, i))
            && (i >= s.items.started ==> s.items.works[i] == NEW_WORK)
  {
    RunInv(g, run);
    var s := After(g, run);
    assert i in s.items.works && i in s.items.holder && Ready(s, i, s.items.holder[i]);
    match s.items.holder[i]
    case Parked =>
    case ByThread(t) => assert Uses(s, Worker(t), i);
    case ByLibrary => assert Uses(s, Library, i);
  }

  // ---- Refinement of the delayed echo ----

  /** The step of the delayed echo that an event amounts to. */
  function ActionOf(s: State, e: Event): Action {
    if !Enabled(s, e) then Stutter
    else
      match e
      case Tick(d) => Pass(d)
      case SleepDone(i, ok) => if ok then Stutter else Cut(i)
      case RecvDone(i, ok, route, body) => if ok then Take(i, Request(route, body, s.echo.now)) else Stutter
      case Run(t) =>
        match s.threads[t] {
          case Enter(i) => if i in s.items.works && DropsMessage(s.items.works[i]) then Drop(i) else Stutter
          case Start(i, StartSend) => Answer(i)
          case _ => Stutter
        }
      case _ => Stutter
  }

  lemma StepRefines(s: State, e: Event)
    requires Inv(s)
    ensures Allowed(s.n, s.echo, ActionOf(s, e)) && Step(s, e).echo == Apply(s.echo, ActionOf(s, e))
  {
    if Enabled(s, e) {
      if e.RecvDone? || e.SleepDone? {
        assert Ready(s, e.i, ByLibrary);
      } else if e.Run? && s.threads[e.t].Enter? {
        EnterInv(s, e.t, s.threads[e.t].i);
        assert Ready(s, s.threads[e.t].i, ByThread(e.t));
      } else if e.Run? && s.threads[e.t].Start? {
        StartInv(s, e.t, s.threads[e.t].i, s.threads[e.t].next);
        assert Ready(s, s.threads[e.t].i, ByThread(e.t));
      }
    }
  }

  /** Over contexts and over the raw socket alike, every event is a permitted step of the delayed echo. */
  lemma BothTransportsRefine(g: Config, run: seq<Event>, e: Event)
    ensures var s := After(g, run);
            && Allowed(g.n, s.echo, ActionOf(s, e))
            && After(g, run + [e]).echo == Apply(s.echo, ActionOf(s, e))
  {
    RunInv(g, run);
    StepRefines(After(g, run), e);
    assert (run + [e])[..|run|] == run;
  }

  /** Requests received are dropped, answered or at a worker, each exactly once, and every reply is right. */
  lemma {:induction false} RequestsAccounted(g: Config, run: seq<Event>)
    ensures Accounted(g.n, After(g, run).echo) && Faithful(After(g, run).echo)
    ensures |After(g, run).echo.open| <= g.n
  {
    if run != [] {
      var before, e := run[..|run| - 1], run[|run| - 1];
      RequestsAccounted(g, before);
      RunInv(g, before);
      var s := After(g, before);
      StepRefines(s, e);
      AccountedStep(g.n, s.echo, ActionOf(s, e));
      FaithfulStep(g.n, s.echo, ActionOf(s, e));
    }
    OpenBound(g.n, After(g, run).echo);
  }

  /** Over every run each single request received is at a worker, or was dropped, or was answered. */
  lemma {:induction false} EachRequestKnown(g: Config, run: seq<Event>, id: int)
    requires 0 <= id < |After(g, run).echo.taken|
    ensures Known(After(g, run).echo, id)
  {
    hide Inv, Step, Known;
    if run != [] {
      var before, e := run[..|run| - 1], run[|run| - 1];
      var s := After(g, before);
      if id < |s.echo.taken| {
        EachRequestKnown(g, before, id);
      }
      RunInv(g, before);
      StepRefines(s, e);
      KnownStep(s.n, s.echo, ActionOf(s, e), id);
    }
  }
}
