/** Which delays the echo servers honour: exactly those that fit a signed 32-bit duration. */
module EchoDelay {
  import opened Bytes
  import opened BigEndian
  import opened EchoSpec
  import opened EchoServer
  import opened EchoSafety
  import opened EchoTheorems

  /** Reply `p` was sent before the delay its request asked for had passed. */
  predicate Early(a: Echo, p: Reply) {
    && 0 <= p.id < |a.taken| && WellFormed(a.taken[p.id])
    && p.at < a.taken[p.id].at + Delay(a.taken[p.id])
  }

  /** No reply to a request that asked for `d` is sent before `d` has passed. */
  ghost predicate NeverEarly(d: nat, a: Echo) {
    forall k :: 0 <= k < |a.replies| && Early(a, a.replies[k]) ==> Delay(a.taken[a.replies[k].id]) != d
  }

  /** The request whose sleep an event reports as failed. */
  function CutBy(s: State, e: Event): Option<int> {
    if Enabled(s, e) && e.SleepDone? && !e.ok && Has(s.echo, e.i) then Some(s.echo.open[e.i]) else None
  }

  lemma StepCut(s: State, e: Event, id: int)
    ensures id in Step(s, e).echo.cut <==> id in s.echo.cut || CutBy(s, e) == Some(id)
  {
    hide Callback, OpFor, RouteOf, SleepOver;
  }

  /** Event `i` of the run reported that the sleep for request `id` failed. */
  predicate Reports(g: Config, run: seq<Event>, i: int, id: int) {
    0 <= i < |run| && CutBy(After(g, run[..i]), run[i]) == Some(id)
  }

  lemma ReportsBefore(g: Config, run: seq<Event>, i: int, id: int)
    requires run != [] && i < |run| - 1
    ensures Reports(g, run[..|run| - 1], i, id) <==> Reports(g, run, i, id)
  {
    if 0 <= i { assert run[..|run| - 1][..i] == run[..i]; }
  }

  lemma {:induction false} CutWasReported(g: Config, run: seq<Event>, id: int)
    requires id in After(g, run).echo.cut
    ensures exists i :: Reports(g, run, i, id)
  {
    hide CutBy, Step;
    var n := |run| - 1;
    StepCut(After(g, run[..n]), run[n], id);
    if id in After(g, run[..n]).echo.cut {
      CutWasReported(g, run[..n], id);
      var i :| Reports(g, run[..n], i, id);
      ReportsBefore(g, run, i, id);
    } else {
      assert Reports(g, run, n, id);
    }
  }

  lemma {:induction false} ReportedIsCut(g: Config, run: seq<Event>, i: int, id: int)
    requires Reports(g, run, i, id)
    ensures id in After(g, run).echo.cut
  {
    hide CutBy, Step;
    var n := |run| - 1;
    if i < n {
      ReportsBefore(g, run, i, id);
      ReportedIsCut(g, run[..n], i, id);
    }
    StepCut(After(g, run[..n]), run[n], id);
  }

  /** `cut` holds exactly the requests whose sleep some event of the run reported as failed. */
  lemma CutMeansFailedSleep(g: Config, run: seq<Event>, id: int)
    ensures id in After(g, run).echo.cut <==> exists i :: Reports(g, run, i, id)
  {
    if i :| Reports(g, run, i, id) {
      ReportedIsCut(g, run, i, id);
    }
    if id in After(g, run).echo.cut {
      CutWasReported(g, run, id);
    }
  }

  /**
   An early reply is to a request whose sleep some event reported as failed, or whose delay is too long to
   wait for.
   */
  lemma EarlyMeansCutOrLong(g: Config, run: seq<Event>, k: nat)
    requires var a := After(g, run).echo; k < |a.replies| && Early(a, a.replies[k])
    ensures var a := After(g, run).echo;
            var d := Delay(a.taken[a.replies[k].id]);
            (exists i :: Reports(g, run, i, a.replies[k].id)) || (TWO_31 <= d && !(g.endless && d == TWO_32 - 1))
  {
    RequestsAccounted(g, run);
    RunInv(g, run);
    var a := After(g, run).echo;
    assert Right(a, a.replies[k]);
    CutMeansFailedSleep(g, run, a.replies[k].id);
  }

  predicate SleepsWell(run: seq<Event>) {
    forall e :: e in run && e.SleepDone? ==> e.ok
  }

  lemma NothingReported(g: Config, run: seq<Event>, id: int)
    requires SleepsWell(run)
    ensures forall i :: !Reports(g, run, i, id)
  {
    forall i ensures !Reports(g, run, i, id) {
      if 0 <= i < |run| { assert run[i] in run; }
    }
  }

  /** Delays of 2^31 ms and more are not waited for, except that the largest may never end. */
  predicate Honoured(endless: bool, d: nat) {
    d < TWO_31 || (endless && d == TWO_32 - 1)
  }

  lemma HonouredDelays(d: nat, g: Config, run: seq<Event>)
    requires Honoured(g.endless, d) && SleepsWell(run)
    ensures NeverEarly(d, After(g, run).echo)
  {
    var a := After(g, run).echo;
    forall k | 0 <= k < |a.replies| && Early(a, a.replies[k]) ensures Delay(a.taken[a.replies[k].id]) != d {
      EarlyMeansCutOrLong(g, run, k);
      NothingReported(g, run, a.replies[k].id);
    }
  }

  /** Below 2^31 ms no reply is early in a run in which no sleep fails. */
  lemma ShortDelaysHonoured(d: nat, g: Config, run: seq<Event>)
    requires d < TWO_31 && SleepsWell(run)
    ensures NeverEarly(d, After(g, run).echo)
  {
    HonouredDelays(d, g, run);
  }

  // ---- A run in which a delay is not waited for ----

  function Body(d: nat): (r: Bytes)
    requires d < TWO_32
    ensures |r| == 4 && Decode(r) == d
  {
    assert Pow256(2) == 0x1_0000 && Pow256(4) == TWO_32;
    DecodeEncode(4, d);
    Encode(4, d)
  }

  function Three(s: State, a: Event, b: Event, c: Event): State { Step(Step(Step(s, a), b), c) }

  lemma {:induction false} AfterOne(g: Config, run: seq<Event>, e: Event)
    ensures After(g, run + [e]) == Step(After(g, run), e)
  {
    assert (run + [e])[..|run|] == run;
  }

  lemma {:induction false} AfterThree(g: Config, run: seq<Event>, a: Event, b: Event, c: Event)
    ensures After(g, run + [a, b, c]) == Three(After(g, run), a, b, c)
  {
    hide Step, After;
    var r1 := run + [a];
    var r2 := r1 + [b];
    assert run + [a, b, c] == r2 + [c];
    AfterOne(g, run, a);
    AfterOne(g, r1, b);
    AfterOne(g, r2, c);
  }

  function One(endless: bool): Config { Config(1, RawSocket, endless) }

  function Listening(en: bool): State {
    State(1, RawSocket, false, false, map[0 := Returning],
          Items(map[0 := NEW_WORK.(state := RECV)], map[0 := Receiving(false)], map[0 := ByLibrary], 1),
          map[], EchoSpec.Start(en))
  }

  function Launched(en: bool, pc: Thread, w: Work): State {
    State(1, RawSocket, false, false, map[0 := pc],
          Items(map[0 := w], map[], map[0 := ByThread(0)], 1), map[], EchoSpec.Start(en))
  }

  lemma Launches(en: bool)
    ensures Step(Begin(One(en)), Launch) == Launched(en, Enter(0), NEW_WORK)
  {
    assert Fill(1, NEW_WORK) == map[0 := NEW_WORK] && Fill(1, Parked) == map[0 := Parked];
  }

  lemma Calls(en: bool)
    ensures Step(Launched(en, Enter(0), NEW_WORK), Run(0))
         == Launched(en, EchoServer.Start(0, StartRecv), NEW_WORK.(state := RECV))
  {
  }

  lemma Receives(en: bool)
    ensures Step(Launched(en, EchoServer.Start(0, StartRecv), NEW_WORK.(state := RECV)), Run(0)) == Listening(en)
  {
  }

  lemma Listens(en: bool)
    ensures Three(Begin(One(en)), Launch, Run(0), Run(0)) == Listening(en)
  {
    hide Step;
    Launches(en);
    Calls(en);
    Receives(en);
  }

  function Taken(d: nat): seq<Request>
    requires d < TWO_32
  {
    [Request([], Body(d), 0)]
  }

  const KEPT := Msg(0, [], [])

  function Asleep(en: bool, d: nat): State
    requires d < TWO_32
  {
    State(1, RawSocket, false, false, map[0 := Returning, 1 := EchoServer.Start(0, StartSleep(ToInt32(d)))],
          Items(map[0 := Work(WAIT, None, Some(KEPT), true)], map[], map[0 := ByThread(1)], 1), map[0 := []],
          Echo(en, 0, Taken(d), map[0 := 0], {}, [], []))
  }

  function Received(en: bool, d: nat): State
    requires d < TWO_32
  {
    Asleep(en, d).(threads := map[0 := Returning],
                   items := Items(map[0 := Work(RECV, Some(Msg(0, [], Body(d))), None, true)],
                                  map[0 := Receiving(true)],
                                  map[0 := ByLibrary], 1))
  }

  function Called(en: bool, d: nat): State
    requires d < TWO_32
  {
    Received(en, d).(threads := map[0 := Returning, 1 := Enter(0)],
                     items := Items(map[0 := Work(RECV, Some(Msg(0, [], Body(d))), None, true)], map[],
                                    map[0 := ByThread(1)], 1))
  }

  lemma GetsRequest(en: bool, d: nat)
    requires d < TWO_32
    ensures Step(Listening(en), RecvDone(0, true, [], Body(d))) == Received(en, d)
  {
  }

  lemma CallsBack(en: bool, d: nat)
    requires d < TWO_32
    ensures Step(Received(en, d), CallBack(1, 0)) == Called(en, d)
  {
  }

  lemma ReadsDelay(en: bool, d: nat)
    requires d < TWO_32
    ensures Step(Called(en, d), Run(1)) == Asleep(en, d)
  {
    assert Body(d)[..4] == Body(d) && Body(d)[4..] == [];
  }

  lemma FallsAsleep(en: bool, d: nat)
    requires d < TWO_32
    ensures Three(Listening(en), RecvDone(0, true, [], Body(d)), CallBack(1, 0), Run(1)) == Asleep(en, d)
  {
    hide Step;
    GetsRequest(en, d);
    CallsBack(en, d);
    ReadsDelay(en, d);
  }

  function Slept(en: bool, d: nat): State
    requires d < TWO_32
  {
    Asleep(en, d).(threads := map[0 := Returning, 1 := Returning],
                   items := Items(map[0 := Work(WAIT, None, Some(KEPT), true)],
                                  map[0 := Sleeping(false, ToInt32(d), 0)], map[0 := ByLibrary], 1))
  }

  lemma Sleeps(en: bool, d: nat)
    requires d < TWO_32
    ensures Step(Asleep(en, d), Run(1)) == Slept(en, d)
  {
  }

  /** A sleep ends early: because it fails, or because its duration gives no bound. */
  predicate EndsEarly(en: bool, d: nat, ok: bool) {
    d < TWO_32 && (ok ==> !Honoured(en, d))
  }

  function CutOr(ok: bool): set<int> { if ok then {} else {0} }

  function Awake(en: bool, d: nat, ok: bool): State
    requires d < TWO_32
  {
    Slept(en, d).(threads := map[0 := Returning, 1 := Returning, 2 := Enter(0)],
                  items := Items(map[0 := Work(WAIT, None, Some(KEPT), ok)], map[], map[0 := ByThread(2)], 1),
                  echo := Echo(en, 0, Taken(d), map[0 := 0], CutOr(ok), [], []))
  }

  function Ended(en: bool, d: nat, ok: bool): State
    requires d < TWO_32
  {
    Awake(en, d, ok).(threads := map[0 := Returning, 1 := Returning],
                      items := Items(map[0 := Work(WAIT, None, Some(KEPT), ok)],
                                     map[0 := Sleeping(true, ToInt32(d), 0)],
                                     map[0 := ByLibrary], 1))
  }

  lemma NoBound(en: bool, d: nat, a: Echo)
    requires d < TWO_32 && !Honoured(en, d) && a.endless == en
    ensures SleepOver(a, ToInt32(d), 0)
  {
  }

  lemma EndsSleep(en: bool, d: nat, ok: bool)
    requires EndsEarly(en, d, ok)
    ensures Step(Slept(en, d), SleepDone(0, ok)) == Ended(en, d, ok)
  {
    hide ToInt32, SleepOver, Honoured, Body;
    if ok {
      NoBound(en, d, Slept(en, d).echo);
    }
  }

  lemma WakesAtOnce(en: bool, d: nat, ok: bool)
    requires EndsEarly(en, d, ok)
    ensures Step(Step(Slept(en, d), SleepDone(0, ok)), CallBack(2, 0)) == Awake(en, d, ok)
  {
    EndsSleep(en, d, ok);
    hide EndsEarly, ToInt32, SleepOver;
  }

  lemma AnswersEarly(en: bool, d: nat, ok: bool)
    requires EndsEarly(en, d, ok)
    ensures Step(Step(Awake(en, d, ok), Run(2)), Run(2)).echo
         == Echo(en, 0, Taken(d), map[], CutOr(ok), [], [Reply(0, [], [], 0)])
  {
    var s := Step(Awake(en, d, ok), Run(2));
    assert s.threads[2] == EchoServer.Start(0, StartSend);
    assert s.items.works == map[0 := Work(SEND, Some(KEPT), None, ok)];
  }

  function ToSleep(d: nat): seq<Event>
    requires d < TWO_32
  {
    [Launch, Run(0), Run(0)] + [RecvDone(0, true, [], Body(d)), CallBack(1, 0), Run(1)]
  }

  function EarlyRun(d: nat, ok: bool): seq<Event>
    requires d < TWO_32
  {
    ToSleep(d) + [Run(1), SleepDone(0, ok), CallBack(2, 0)] + [Run(2)] + [Run(2)]
  }

  lemma ReachesSleep(en: bool, d: nat)
    requires d < TWO_32
    ensures After(One(en), ToSleep(d)) == Asleep(en, d)
  {
    hide Three;
    Listens(en);
    FallsAsleep(en, d);
    var r3: seq<Event> := [Launch, Run(0), Run(0)];
    AfterThree(One(en), [], Launch, Run(0), Run(0));
    assert [] + r3 == r3;
    AfterThree(One(en), r3, RecvDone(0, true, [], Body(d)), CallBack(1, 0), Run(1));
  }

  lemma ReachesReply(en: bool, d: nat, ok: bool)
    requires EndsEarly(en, d, ok)
    ensures After(One(en), EarlyRun(d, ok)).echo == Echo(en, 0, Taken(d), map[], CutOr(ok), [], [Reply(0, [], [], 0)])
  {
    hide Step;
    ReachesSleep(en, d);
    Sleeps(en, d);
    WakesAtOnce(en, d, ok);
    AnswersEarly(en, d, ok);
    var r9 := ToSleep(d) + [Run(1), SleepDone(0, ok), CallBack(2, 0)];
    AfterThree(One(en), ToSleep(d), Run(1), SleepDone(0, ok), CallBack(2, 0));
    AfterOne(One(en), r9, Run(2));
    AfterOne(One(en), r9 + [Run(2)], Run(2));
  }

  lemma EarlyReply(en: bool, d: nat, ok: bool)
    requires EndsEarly(en, d, ok) && d > 0
    ensures !NeverEarly(d, After(One(en), EarlyRun(d, ok)).echo)
  {
    ReachesReply(en, d, ok);
    var a := After(One(en), EarlyRun(d, ok)).echo;
    var r := a.taken[a.replies[0].id];
    assert r.body[..4] == Body(d) && Delay(r) == d && Early(a, a.replies[0]);
  }

  /** A delay of 2^31 ms or more is answered too early in some run in which no sleep fails. */
  lemma LongDelayIgnored(en: bool, d: nat)
    requires TWO_31 <= d < TWO_32 && !Honoured(en, d)
    ensures SleepsWell(EarlyRun(d, true)) && !NeverEarly(d, After(One(en), EarlyRun(d, true)).echo)
  {
    EarlyReply(en, d, true);
  }

  /**
   As long as no sleep fails, a delay is honoured in every run, on either transport and with any number of
   items, exactly when it is below 2^31, or when it is 2^32 - 1 and the library never ends such a sleep.
   */
  lemma DelayHonouredIff(en: bool, d: nat)
    requires d < TWO_32
    ensures (forall g: Config, run :: g.endless == en && SleepsWell(run) ==> NeverEarly(d, After(g, run).echo))
            <==> d < TWO_31 || (en && d == TWO_32 - 1)
  {
    if Honoured(en, d) {
      forall g: Config, run | g.endless == en && SleepsWell(run) ensures NeverEarly(d, After(g, run).echo) {
        HonouredDelays(d, g, run);
      }
    } else {
      LongDelayIgnored(en, d);
      assert One(en).endless == en;
    }
  }

  /** The server does not look at how a sleep ended: if sleeps may fail, no delay but zero is honoured in every run. */
  lemma FailedSleepsIff(en: bool, d: nat)
    requires d < TWO_32
    ensures (forall g: Config, run :: g.endless == en ==> NeverEarly(d, After(g, run).echo)) <==> d == 0
  {
    if d == 0 {
      forall g: Config, run | g.endless == en ensures NeverEarly(0, After(g, run).echo) {
        NeverBefore(g, run);
      }
    } else {
      EarlyReply(en, d, false);
      assert One(en).endless == en;
    }
  }

  /** Nothing is answered before it is received. */
  lemma {:induction false} NeverBefore(g: Config, run: seq<Event>)
    ensures NeverEarly(0, After(g, run).echo)
  {
    InOrder(g, run);
  }

  ghost predicate Ordered(a: Echo) {
    && (forall k :: 0 <= k < |a.taken| ==> a.taken[k].at <= a.now)
    && (forall k :: 0 <= k < |a.replies| ==>
                      0 <= a.replies[k].id < |a.taken| && a.taken[a.replies[k].id].at <= a.replies[k].at)
  }

  lemma OrderedStep(n: int, a: Echo, act: Action)
    requires Ordered(a) && Allowed(n, a, act)
    ensures Ordered(Apply(a, act))
  {
  }

  lemma {:induction false} InOrder(g: Config, run: seq<Event>)
    ensures Ordered(After(g, run).echo)
  {
    hide Inv, Step;
    if run != [] {
      var before, e := run[..|run| - 1], run[|run| - 1];
      InOrder(g, before);
      RunInv(g, before);
      StepRefines(After(g, before), e);
      OrderedStep(After(g, before).n, After(g, before).echo, ActionOf(After(g, before), e));
    }
  }

  /** The body the client sends for an `int` of milliseconds makes the server sleep for exactly that `int`. */
  lemma ClientDelay(msec: int)
    requires -TWO_31 <= msec < TWO_31
    ensures |Body(ToUint32(msec))| == 4
    ensures ToInt32(ReadDelay(Body(ToUint32(msec)))) == msec
  {
    var body := Body(ToUint32(msec));
    assert body[..4] == body;
  }
}
