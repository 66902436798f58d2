/**
 One run of the proxy in which a REQ send fails before the handler that started it has released its
 pointer: the job is answered, recycled and taken by a second handler meanwhile, and the second
 request overwrites the failed message in the aio slot.
 */
module RestWitness {
  import opened Bytes
  import opened RestProxy
  import opened RestTheorems
  import opened RestProgress

  const TO_REUSE: seq<Event> :=
    [Accept(0, 100, [65]), Run(0, true, 0), Run(0, true, 0)] + [Run(0, true, 0), Run(0, true, 0), Run(0, true, 0)] +
    [Run(0, true, 7), Run(0, true, 0), Run(0, true, 0)] + [SendDone(0, false), Callback(1, 0), Run(1, true, 0)] +
    [Run(1, true, 0), Run(1, true, 0), Run(1, true, 0)] + [Run(1, true, 0), Accept(2, 101, [66]), Run(2, true, 0)]

  const TO_LOAD: seq<Event> := TO_REUSE + [Run(2, true, 0), Run(2, true, 1), Run(2, true, 0)] + [Run(2, true, 8)]

  function Three(s: State, a: Event, b: Event, c: Event): State { Step(Step(Step(s, a), b), c) }

  lemma {:induction false} AfterThree(run: seq<Event>, a: Event, b: Event, c: Event)
    ensures After(run + [a, b, c]) == Three(After(run), a, b, c)
  {
    hide Step, After;
    var r1 := run + [a];
    var r2 := r1 + [b];
    assert run + [a, b, c] == r2 + [c];
    ExtendBy(run, a);
    ExtendBy(r1, b);
    ExtendBy(r2, c);
  }

  const NO_NET := Net({}, map[], map[], map[], Idle)
  const NO_MSGS := Msgs(map[], {}, false)
  const ONE_REQUEST: map<AioId, Bytes> := map[100 := [65]]

  const ALLOCATED := State(false, false, map[0 := MakeRes(100, 0)],
    Pool(map[0 := NEW_JOB], [], map[], map[0 := ByThread(0)]), Http(ONE_REQUEST, map[], map[100 := Local(0)], false),
    NO_MSGS, NO_NET)

  const JOB := Job(Some(100), Some([]), SendReq, None, Empty, true, Some(0))
  const PARKED := Http(ONE_REQUEST, map[], map[100 := Parked(0)], false)
  const OPENED := Net({0}, map[0 := 0], map[], map[], Idle)

  const ATTACHED := State(false, false, map[0 := NewMsg(0, [65])],
    Pool(map[0 := JOB], [], map[], map[0 := ByThread(0)]), PARKED, NO_MSGS, OPENED)

  const SEVEN := Cell([65], JobSlot(0))

  const STARTED := State(false, false, map[0 := Releasing],
    Pool(map[0 := JOB.(slot := Holds(7))], [], map[0 := Op(SendReq, false)], map[0 := InFlight]), PARKED,
    Msgs(map[7 := SEVEN], {}, false), OPENED)

  const FAILED := State(false, false, map[0 := Releasing, 1 := Fatal(0)],
    Pool(map[0 := JOB.(slot := Holds(7), succeeded := false)], [], map[], map[0 := ByThread(1)]), PARKED,
    Msgs(map[7 := SEVEN], {7}, false), OPENED)

  const USED := Job(None, None, SendReq, None, Holds(7), false, None)

  const CLEARED := State(false, false, map[0 := Releasing, 1 := Push(0, None)],
    Pool(map[0 := USED], [], map[], map[0 := ByThread(1)]), Http(ONE_REQUEST, map[100 := ServerError], map[], false),
    Msgs(map[7 := SEVEN], {7}, false), Net({0}, map[], map[], map[], Idle))

  const REUSED := State(false, false, map[0 := Releasing, 2 := MakeRes(101, 0)],
    Pool(map[0 := USED], [], map[], map[0 := ByThread(2)]),
    Http(map[100 := [65], 101 := [66]], map[100 := ServerError], map[101 := Local(2)], false),
    Msgs(map[7 := SEVEN], {7}, false), Net({0}, map[], map[], map[], Idle))

  lemma Setup()
    ensures Three(INIT, Accept(0, 100, [65]), Run(0, true, 0), Run(0, true, 0)) == ALLOCATED
  {
  }

  const OPENING := State(false, false, map[0 := OpenCtx(100, 0)],
    Pool(map[0 := NEW_JOB.(httpRes := Some([]))], [], map[], map[0 := ByThread(0)]),
    Http(ONE_REQUEST, map[], map[100 := Local(0)], false), NO_MSGS, NO_NET)

  lemma Opening()
    ensures Step(ALLOCATED, Run(0, true, 0)) == OPENING
  {
  }

  const CONNECTED := OPENING.(threads := map[0 := Attach(100, 0)],
                              pool := Pool(map[0 := JOB.(httpAio := None)], [], map[], map[0 := ByThread(0)]),
                              net := OPENED)

  lemma Connecting()
    ensures Step(OPENING, Run(0, true, 0)) == CONNECTED
  {
  }

  lemma Parking()
    ensures Step(CONNECTED, Run(0, true, 0)) == ATTACHED
  {
  }

  lemma Attaching()
    ensures Three(ALLOCATED, Run(0, true, 0), Run(0, true, 0), Run(0, true, 0)) == ATTACHED
  {
    hide Step;
    Opening();
    Connecting();
    Parking();
  }

  const LOADING := State(false, false, map[0 := Load(0, [65])],
    Pool(map[0 := JOB.(msg := Some(7))], [], map[], map[0 := ByThread(0)]), PARKED,
    Msgs(map[7 := Cell([0], JobMsg(0))], {}, false), OPENED)

  lemma Loading()
    ensures Step(ATTACHED, Run(0, true, 7)) == LOADING
  {
    assert seq(1, _ => 0) == [0];
  }

  const FILLED := STARTED.(threads := map[0 := StartSend(0)],
                           pool := Pool(map[0 := JOB.(slot := Holds(7))], [], map[], map[0 := ByThread(0)]))

  lemma Filling()
    ensures Step(LOADING, Run(0, true, 0)) == FILLED
  {
  }

  lemma Sending()
    ensures Step(FILLED, Run(0, true, 0)) == STARTED
  {
  }

  lemma Starting()
    ensures Three(ATTACHED, Run(0, true, 7), Run(0, true, 0), Run(0, true, 0)) == STARTED
  {
    hide Step;
    Loading();
    Filling();
    Sending();
  }

  const REPORTED := FAILED.(threads := map[0 := Releasing],
                            pool := Pool(map[0 := JOB.(slot := Holds(7), succeeded := false)], [],
                                         map[0 := Op(SendReq, true)], map[0 := InFlight]))

  const CALLED := FAILED.(threads := map[0 := Releasing, 1 := Dispatch(0)])

  lemma Reporting()
    ensures Step(STARTED, SendDone(0, false)) == REPORTED
  {
  }

  lemma Calling()
    ensures Step(REPORTED, Callback(1, 0)) == CALLED
  {
  }

  lemma Turning()
    ensures Step(CALLED, Run(1, true, 0)) == FAILED
  {
  }

  lemma Failing()
    ensures Three(STARTED, SendDone(0, false), Callback(1, 0), Run(1, true, 0)) == FAILED
  {
    hide Step;
    Reporting();
    Calling();
    Turning();
  }

  const FINISHING := State(false, false, map[0 := Releasing, 1 := FatalFinish(100, 0, true)],
    Pool(map[0 := USED.(ctx := Some(0))], [], map[], map[0 := ByThread(1)]),
    Http(ONE_REQUEST, map[], map[100 := Local(1)], false), Msgs(map[7 := SEVEN], {7}, false), OPENED)

  lemma Finishing()
    ensures Step(FAILED, Run(1, true, 0)) == FINISHING
  {
  }

  const FINISHED := FINISHING.(threads := map[0 := Releasing, 1 := Clear(0, None)],
                               http := Http(ONE_REQUEST, map[100 := ServerError], map[], false))

  lemma Closing()
    ensures Step(FINISHING, Run(1, true, 0)) == FINISHED
  {
  }

  lemma Emptying()
    ensures Step(FINISHED, Run(1, true, 0)) == CLEARED
  {
  }

  lemma Clearing()
    ensures Three(FAILED, Run(1, true, 0), Run(1, true, 0), Run(1, true, 0)) == CLEARED
  {
    hide Step;
    Finishing();
    Closing();
    Emptying();
  }

  const PUSHED := CLEARED.(threads := map[0 := Releasing],
                           pool := Pool(map[0 := USED], [0], map[], map[0 := OnFreelist]))

  const ACCEPTED := PUSHED.(threads := map[0 := Releasing, 2 := Get(101)], http := REUSED.http)

  lemma Pushing()
    ensures Step(CLEARED, Run(1, true, 0)) == PUSHED
  {
  }

  lemma Accepting()
    ensures Step(PUSHED, Accept(2, 101, [66])) == ACCEPTED
  {
  }

  lemma Getting()
    ensures Step(ACCEPTED, Run(2, true, 0)) == REUSED
  {
  }

  lemma Reusing()
    ensures Three(CLEARED, Run(1, true, 0), Accept(2, 101, [66]), Run(2, true, 0)) == REUSED
  {
    hide Step;
    Pushing();
    Accepting();
    Getting();
  }

  lemma ReachesReuse()
    ensures After(TO_REUSE) == REUSED
  {
    hide Three;
    Setup();
    Attaching();
    Starting();
    Failing();
    Clearing();
    Reusing();
    var r3: seq<Event> := [Accept(0, 100, [65]), Run(0, true, 0), Run(0, true, 0)];
    AfterThree([], Accept(0, 100, [65]), Run(0, true, 0), Run(0, true, 0));
    assert [] + r3 == r3;
    var r6 := r3 + [Run(0, true, 0), Run(0, true, 0), Run(0, true, 0)];
    AfterThree(r3, Run(0, true, 0), Run(0, true, 0), Run(0, true, 0));
    var r9 := r6 + [Run(0, true, 7), Run(0, true, 0), Run(0, true, 0)];
    AfterThree(r6, Run(0, true, 7), Run(0, true, 0), Run(0, true, 0));
    var r12 := r9 + [SendDone(0, false), Callback(1, 0), Run(1, true, 0)];
    AfterThree(r9, SendDone(0, false), Callback(1, 0), Run(1, true, 0));
    var r15 := r12 + [Run(1, true, 0), Run(1, true, 0), Run(1, true, 0)];
    AfterThree(r12, Run(1, true, 0), Run(1, true, 0), Run(1, true, 0));
    AfterThree(r15, Run(1, true, 0), Accept(2, 101, [66]), Run(2, true, 0));
  }

  /** A handler that has not yet released its pointer can see the job already in the hands of another request. */
  lemma HandOffOverlaps()
    ensures var s := After(TO_REUSE);
            && 0 in s.threads && 2 in s.threads && s.threads[0] == Releasing && JobOf(s.threads[2]) == Some(0)
            && s.http.finished == map[100 := ServerError]
  {
    ReachesReuse();
  }

  const REOPENED := USED.(httpAio := Some(101), httpRes := Some([]), ctx := Some(1))

  const REATTACHED := State(false, false, map[0 := Releasing, 2 := NewMsg(0, [66])],
    Pool(map[0 := REOPENED], [], map[], map[0 := ByThread(2)]),
    Http(map[100 := [65], 101 := [66]], map[100 := ServerError], map[101 := Parked(0)], false),
    Msgs(map[7 := SEVEN], {7}, false), Net({0, 1}, map[1 := 0], map[], map[], Idle))

  const ANSWERED := REUSED.(threads := map[0 := Releasing, 2 := OpenCtx(101, 0)],
                            pool := Pool(map[0 := USED.(httpRes := Some([]))], [], map[], map[0 := ByThread(2)]))

  const OPENED_AGAIN := State(false, false, map[0 := Releasing, 2 := Attach(101, 0)],
    Pool(map[0 := REOPENED.(httpAio := None)], [], map[], map[0 := ByThread(2)]),
    Http(map[100 := [65], 101 := [66]], map[100 := ServerError], map[101 := Local(2)], false),
    Msgs(map[7 := SEVEN], {7}, false), Net({0, 1}, map[1 := 0], map[], map[], Idle))

  lemma Answering()
    ensures Step(REUSED, Run(2, true, 0)) == ANSWERED
  {
  }

  lemma Reopening()
    ensures Step(ANSWERED, Run(2, true, 1)) == OPENED_AGAIN
  {
    assert Step(ANSWERED, Run(2, true, 1)).net == OPENED_AGAIN.net;
  }

  lemma ParkingAgain()
    ensures Step(OPENED_AGAIN, Run(2, true, 0)) == REATTACHED
  {
    assert Step(OPENED_AGAIN, Run(2, true, 0)).http == REATTACHED.http;
  }

  lemma Reattaching()
    ensures Three(REUSED, Run(2, true, 0), Run(2, true, 1), Run(2, true, 0)) == REATTACHED
  {
    hide Step;
    Answering();
    Reopening();
    ParkingAgain();
  }

  lemma Refilling()
    ensures var s := Step(REATTACHED, Run(2, true, 8));
            && s.threads == map[0 := Releasing, 2 := Load(0, [66])]
            && s.pool.jobs == map[0 := REOPENED.(msg := Some(8))]
  {
  }

  lemma ReachesLoad()
    ensures After(TO_LOAD) == Step(REATTACHED, Run(2, true, 8))
  {
    hide Step;
    ReachesReuse();
    Reattaching();
    AfterThree(TO_REUSE, Run(2, true, 0), Run(2, true, 1), Run(2, true, 0));
    var r := TO_REUSE + [Run(2, true, 0), Run(2, true, 1), Run(2, true, 0)];
    Extend(r, [Run(2, true, 8)]);
    assert r + [Run(2, true, 8)][..0] == r;
  }

  /** After a failed send a message can be lost: the next request of the job overwrites the slot that holds it. */
  lemma FailedSendCanLose()
    ensures Lost(After(TO_LOAD + [Run(2, true, 0)]), 7)
  {
    ReachesLoad();
    Refilling();
    LossExactly(TO_LOAD, Run(2, true, 0), 7);
  }
}
