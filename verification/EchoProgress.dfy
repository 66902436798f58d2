/**
 When the echo servers exit, when one of their items can go no further, and that otherwise they answer
 or drop every request they hold and go back to receiving.
 */
module EchoProgress {
  import opened Bytes
  import opened Collections
  import opened Sums
  import opened EchoSpec
  import opened EchoServer
  import opened EchoSafety
  import opened EchoTheorems

  /** Until the program exits, requests arrive at any time, and every operation may succeed or fail. */
  lemma NothingForbidden(s: State, t: int, u: int, i: int, ok: bool, route: Bytes, body: Bytes, d: int)
    requires !s.exited && t in s.threads && u !in s.threads && u != MAIN
    ensures EchoServer.Enabled(s, Run(t)) && (d >= 0 ==> EchoServer.Enabled(s, Tick(d)))
    ensures MAIN !in s.threads && s.items.started < s.n ==> EchoServer.Enabled(s, Launch)
    ensures i in s.items.works && i in s.items.ops ==>
              match s.items.ops[i]
              case Receiving(false) => EchoServer.Enabled(s, RecvDone(i, ok, route, body))
              case Sending(false) => EchoServer.Enabled(s, SendDone(i, ok))
              case Sleeping(false, ms, since) =>
                && EchoServer.Enabled(s, SleepDone(i, false))
                && ((ms >= 0 ==> since + ms <= s.echo.now) && (ms == -1 ==> !s.echo.endless) ==>
                      EchoServer.Enabled(s, SleepDone(i, true)))
              case _ => EchoServer.Enabled(s, CallBack(u, i))
  {
  }

  // ---- What an item cannot get over ----

  predicate Failure(w: Work) { (w.state == RECV || w.state == SEND) && !w.succeeded }

  /** The request just received asks for a sleep that never ends. */
  predicate Sleepless(endless: bool, w: Work) {
    && endless && w.state == RECV && w.succeeded
    && w.slot.Some? && |w.slot.value.body| >= 4 && ToInt32(ReadDelay(w.slot.value.body)) == -1
  }

  /** The section the thread that has item `i` is about to run. */
  function PcOf(s: State, i: int): Thread {
    if i in s.items.holder && s.items.holder[i].ByThread? && s.items.holder[i].t in s.threads
    then s.threads[s.items.holder[i].t] else Returning
  }

  /** A receive or a send of item `i` has failed, and its callback is still to find out. */
  predicate Fails(s: State, i: int) {
    && i in s.items.works && Failure(s.items.works[i])
    && if i in s.items.ops then s.items.ops[i].completed else PcOf(s, i).Enter?
  }

  /** Item `i` is in, or bound for, a sleep that never ends. */
  predicate Hangs(s: State, i: int) {
    && i in s.items.works && s.echo.endless
    && if i in s.items.ops then
         match s.items.ops[i]
         case Receiving(completed) => completed && Sleepless(s.echo.endless, s.items.works[i])
         case Sleeping(completed, ms, _) => !completed && ms == -1
         case Sending(_) => false
       else
         match PcOf(s, i)
         case Enter(_) => Sleepless(s.echo.endless, s.items.works[i])
         case Start(_, StartSleep(ms)) => ms == -1
         case _ => false
  }

  predicate FailedEvent(e: Event, i: int) {
    match e
    case RecvDone(k, ok, _, _) => k == i && !ok
    case SendDone(k, ok) => k == i && !ok
    case _ => false
  }

  /** A request whose delay is the infinite duration. */
  predicate HangingEvent(endless: bool, e: Event, i: int) {
    e.RecvDone? && e.i == i && e.ok && endless && |e.body| >= 4 && ToInt32(ReadDelay(e.body)) == -1
  }

  // ---- Step by step ----

  /** A step leaves the items it is not for as they are. */
  lemma OthersSame(s: State, s': State, k: int, i: int)
    requires Inv(s) && Inv(s') && Local(s, s', {k}) && i != k && (i in s'.items.works <==> i in s.items.works)
    ensures Fails(s', i) <==> Fails(s, i)
    ensures Hangs(s', i) <==> Hangs(s, i)
  {
    hide AllReady;
    if i in s.items.works {
      assert i in s.items.holder && i in s'.items.holder && s'.items.holder[i] == s.items.holder[i];
    }
  }

  /** The item an event is for. */
  function ItemFor(s: State, e: Event): Option<int>
    requires Enabled(s, e)
  {
    match e
    case Tick(_) => None
    case Launch => Some(s.items.started)
    case Run(t) => ItemOf(s.threads[t])
    case RecvDone(i, _, _, _) => Some(i)
    case SleepDone(i, _) => Some(i)
    case SendDone(i, _) => Some(i)
    case CallBack(_, i) => Some(i)
  }

  lemma RunLocal(s: State, t: int, i: int)
    requires Inv(s) && Enabled(s, Run(t)) && ItemOf(s.threads[t]) == Some(i)
    ensures Local(s, DoRun(s, t), {i})
  {
    hide HolderInv, AllReady, Local;
    ThreadIsReady(s, t, i);
    if s.threads[t].Enter? { EnterLocal(s, t, i); } else { StartLocal(s, t, i, s.threads[t].next); }
  }

  lemma StepLocal(s: State, e: Event, i: int)
    requires Inv(s) && Enabled(s, e) && ItemFor(s, e) == Some(i)
    ensures Local(s, Step(s, e), {i})
  {
    hide HolderInv, AllReady, Local, OpReady;
    match e
    case Launch =>
      LaunchHolder(s);
      ParkedIsReady(s, i);
      LaunchWorks(s);
    case Run(t) => RunLocal(s, t, i);
    case RecvDone(_, ok, route, body) =>
      OpIsReady(s, i);
      RecvDoneWorks(s, i, ok, route, body);
    case SleepDone(_, ok) =>
      OpIsReady(s, i);
      SleepDoneLocal(s, i, ok);
    case SendDone(_, ok) =>
      OpIsReady(s, i);
      SendDoneWorks(s, i, ok);
    case CallBack(t, _) =>
      OpIsReady(s, i);
      CallBackWorks(s, t, i);
  }

  /** What an event does to the prospects of the item it is for. */
  ghost predicate Follows(s: State, s': State, e: Event, i: int) {
    && (Fails(s', i) <==> Fails(s, i) || FailedEvent(e, i))
    && (Hangs(s', i) <==> (Hangs(s, i) && e != SleepDone(i, false)) || HangingEvent(s.echo.endless, e, i))
  }

  lemma LaunchFollows(s: State)
    requires HolderInv(s.n, s.items, s.threads) && AllReady(s) && Enabled(s, Launch)
    ensures Follows(s, DoLaunch(s), Launch, s.items.started)
  {
    LaunchHolder(s);
    ParkedIsReady(s, s.items.started);
  }

  /** Entering the callback: it throws exactly if the item fails, and otherwise starts what the item is for. */
  lemma EnterFollows(s: State, t: int, i: int)
    requires MayTouch(s, t, i) && t in s.threads && s.threads[t] == Enter(i) && i !in s.items.ops
    requires Arrived(s, i, s.items.works[i]) && !s.exited
    ensures var s' := DoEnter(s, t, i, s.items.works[i]);
            (s'.exited <==> Fails(s, i)) && (!s'.exited ==> Follows(s, s', Run(t), i))
  {
  }

  lemma StartFollows(s: State, t: int, i: int, next: Next)
    requires MayTouch(s, t, i) && t in s.threads && s.threads[t] == EchoServer.Start(i, next) && i !in s.items.ops
    requires StartReady(s, i, s.items.works[i], next)
    ensures var s' := DoStart(s, t, i, s.items.works[i], next);
            s'.exited == s.exited && Follows(s, s', Run(t), i)
  {
  }

  lemma RecvDoneFollows(s: State, i: int, ok: bool, route: Bytes, body: Bytes)
    requires Underway(s, i) && s.items.ops[i].Receiving?
    ensures Follows(s, DoRecvDone(s, i, s.items.works[i], ok, route, body), RecvDone(i, ok, route, body), i)
  {
    hide ToInt32, ReadDelay;
  }

  lemma SleepDoneFollows(s: State, i: int, ok: bool)
    requires Underway(s, i) && s.items.ops[i].Sleeping? && Enabled(s, SleepDone(i, ok))
    ensures Follows(s, DoSleepDone(s, i, s.items.works[i], ok), SleepDone(i, ok), i)
  {
    hide ToInt32, ReadDelay;
  }

  lemma SendDoneFollows(s: State, i: int, ok: bool)
    requires Underway(s, i) && s.items.ops[i].Sending?
    ensures Follows(s, DoSendDone(s, i, s.items.works[i], ok), SendDone(i, ok), i)
  {
    hide ToInt32, ReadDelay;
  }

  lemma CallBackFollows(s: State, t: int, i: int)
    requires Enabled(s, CallBack(t, i)) && i in s.items.works && OpReady(s, i, s.items.works[i], s.items.ops[i])
    requires i in s.items.holder && s.items.holder[i] == ByLibrary
    ensures Follows(s, DoCallBack(s, t, i), CallBack(t, i), i)
  {
    hide ToInt32, ReadDelay;
  }

  lemma HeldNotStarted(s: State, t: int, i: int)
    requires HolderInv(s.n, s.items, s.threads) && MayTouch(s, t, i)
    ensures i !in s.items.ops
  {
  }

  lemma RunFollows(s: State, t: int, i: int)
    requires Inv(s) && Enabled(s, Run(t)) && ItemOf(s.threads[t]) == Some(i)
    ensures DoRun(s, t).exited <==> s.threads[t].Enter? && Fails(s, i)
    ensures !DoRun(s, t).exited ==> Follows(s, DoRun(s, t), Run(t), i)
  {
    hide HolderInv, AllReady, Follows, Fails, Arrived, StartReady;
    ThreadIsReady(s, t, i);
    HeldNotStarted(s, t, i);
    if s.threads[t].Enter? { EnterFollows(s, t, i); } else { StartFollows(s, t, i, s.threads[t].next); }
  }

  lemma ItemFollows(s: State, e: Event, i: int)
    requires Inv(s) && Enabled(s, e) && ItemFor(s, e) == Some(i) && !Step(s, e).exited
    ensures Follows(s, Step(s, e), e, i)
  {
    hide HolderInv, AllReady, Follows, OpReady;
    match e
    case Launch => LaunchFollows(s);
    case Run(t) => RunFollows(s, t, i);
    case RecvDone(_, ok, route, body) =>
      OpIsReady(s, i);
      RecvDoneFollows(s, i, ok, route, body);
    case SleepDone(_, ok) =>
      OpIsReady(s, i);
      SleepDoneFollows(s, i, ok);
    case SendDone(_, ok) =>
      OpIsReady(s, i);
      SendDoneFollows(s, i, ok);
    case CallBack(t, _) =>
      OpIsReady(s, i);
      CallBackFollows(s, t, i);
  }

  lemma StepKeepsSetting(s: State, e: Event)
    ensures Step(s, e).n == s.n && Step(s, e).echo.endless == s.echo.endless
  {
    hide Callback, OpFor, RouteOf, SleepOver;
  }

  lemma WorksStay(s: State, e: Event, i: int)
    requires Inv(s) && Inv(Step(s, e)) && s.n == Step(s, e).n
    ensures i in Step(s, e).items.works <==> i in s.items.works
  {
    hide AllReady, Step;
  }

  lemma IdleFollows(s: State, e: Event, i: int)
    requires Inv(s) && Enabled(s, e) && ItemFor(s, e) == None
    ensures Follows(s, Step(s, e), e, i)
  {
    hide AllReady;
    if i in s.items.works && i in s.items.holder && s.items.holder[i].ByThread? {
      assert ItemOf(s.threads[s.items.holder[i].t]) == Some(i);
    }
  }

  /** An item begins to fail, or to hang, by just the events that say so, and stops by none but a failing sleep. */
  lemma Prospects(s: State, e: Event, i: int)
    requires Inv(s) && Enabled(s, e) && !Step(s, e).exited
    ensures Follows(s, Step(s, e), e, i)
  {
    hide Inv, Local, Fails, Hangs, Step, EchoServer.Enabled;
    if ItemFor(s, e) == None {
      IdleFollows(s, e, i);
    } else if ItemFor(s, e) == Some(i) {
      ItemFollows(s, e, i);
    } else {
      StepInv(s, e);
      StepLocal(s, e, ItemFor(s, e).value);
      StepKeepsSetting(s, e);
      WorksStay(s, e, i);
      OthersSame(s, Step(s, e), ItemFor(s, e).value, i);
    }
  }

  /** The server exits exactly when a callback is entered for an item whose receive or send has failed. */
  lemma ExitsIff(s: State, e: Event)
    requires Inv(s) && Enabled(s, e)
    ensures Step(s, e).exited <==> e.Run? && s.threads[e.t].Enter? && Fails(s, s.threads[e.t].i)
  {
    hide HolderInv, AllReady, Fails;
    if e.Run? && ItemOf(s.threads[e.t]).Some? {
      RunFollows(s, e.t, ItemOf(s.threads[e.t]).value);
    }
  }

  lemma {:induction false} NoFailureYet(g: Config, run: seq<Event>, i: int)
    requires forall e :: e in run ==> !FailedEvent(e, i)
    ensures After(g, run).exited || !Fails(After(g, run), i)
  {
    hide Step, Inv;
    if run != [] {
      var before, e := run[..|run| - 1], run[|run| - 1];
      assert e in run && forall d :: d in before ==> d in run;
      NoFailureYet(g, before, i);
      RunInv(g, before);
      StepOrStay(After(g, before), e);
      if EchoServer.Enabled(After(g, before), e) && !After(g, run).exited {
        Prospects(After(g, before), e, i);
      }
    }
  }

  lemma StepOrStay(s: State, e: Event)
    ensures !EchoServer.Enabled(s, e) ==> Step(s, e) == s
    ensures s.exited ==> Step(s, e) == s
  {
  }

  /** A server none of whose receives and sends fails never exits. */
  lemma {:induction false} NoFailureNoExit(g: Config, run: seq<Event>)
    requires forall e, i :: e in run ==> !FailedEvent(e, i)
    ensures !After(g, run).exited
  {
    hide Step, Inv, Fails;
    if run != [] {
      var before, e := run[..|run| - 1], run[|run| - 1];
      assert forall d :: d in before ==> d in run;
      NoFailureNoExit(g, before);
      RunInv(g, before);
      var s := After(g, before);
      StepOrStay(s, e);
      if EchoServer.Enabled(s, e) {
        ExitsIff(s, e);
        if e.Run? && s.threads[e.t].Enter? {
          NoFailureYet(g, before, s.threads[e.t].i);
        }
      }
    }
  }

  // ---- What is left to do ----

  /** Events a thread can still bring about before its item is receiving again. */
  function Rank(works: map<int, Work>, pc: Thread): int {
    match pc
    case Returning => 1
    case Enter(i) =>
      if i in works && (works[i].state == INIT || works[i].state == SEND) then 3
      else if i in works && works[i].state == WAIT then 8
      else 13
    case Start(_, StartRecv) => 2
    case Start(_, StartSend) => 7
    case _ => 12
  }

  function OpRank(op: Op): int {
    match op
    case Receiving(false) => 0
    case Sending(true) => 4
    case Sending(false) => 5
    case Sleeping(true, _, _) => 9
    case Sleeping(false, _, _) => 10
    case Receiving(true) => 14
  }

  function Threads(s: State): map<int, int> { map t | t in s.threads :: Rank(s.items.works, s.threads[t]) }
  function Ops(it: Items): map<int, int> { map i | i in it.ops :: OpRank(it.ops[i]) }

  ghost function Work(s: State): int { Sum(Threads(s)) + Sum(Ops(s.items)) + 4 * (s.n - s.items.started) }

  lemma WorkIsNatural(s: State)
    requires s.items.started <= s.n
    ensures Work(s) >= 0
  {
    SumBounds(Threads(s));
    SumBounds(Ops(s.items));
  }

  /** The threads other than `t` are as before, and so are the states of the items they are to enter. */
  ghost predicate OnlyThread(s: State, s': State, t: int) {
    && (forall u :: u != t ==> (u in s.threads <==> u in s'.threads))
    && (forall u :: u in s.threads && u != t ==> s'.threads[u] == s.threads[u])
    && (forall u :: u in s.threads && u != t ==>
          Rank(s'.items.works, s.threads[u]) == Rank(s.items.works, s.threads[u]))
  }

  /** The operations other than that of `i` are as before. */
  ghost predicate OnlyOp(it: Items, it': Items, i: int) {
    && (forall k :: k != i ==> (k in it.ops <==> k in it'.ops))
    && (forall k :: k in it.ops && k != i ==> it'.ops[k] == it.ops[k])
  }

  function ThreadRank(s: State, t: int): int { if t in s.threads then Rank(s.items.works, s.threads[t]) else 0 }
  function ItemRank(it: Items, i: int): int { if i in it.ops then OpRank(it.ops[i]) else 0 }

  lemma WorkDiffers(s: State, s': State, t: int, i: int)
    requires OnlyThread(s, s', t) && OnlyOp(s.items, s'.items, i) && s'.n == s.n
    ensures Work(s') - Work(s) == ThreadRank(s', t) - ThreadRank(s, t) + ItemRank(s'.items, i) - ItemRank(s.items, i)
                                  - 4 * (s'.items.started - s.items.started)
  {
    SumDiffer(Threads(s), Threads(s'), t);
    SumDiffer(Ops(s.items), Ops(s'.items), i);
  }

  /** What happens without a new request and without a failure. */
  predicate Benign(e: Event) {
    match e
    case RecvDone(_, _, _, _) => false
    case SleepDone(_, ok) => ok
    case SendDone(_, ok) => ok
    case _ => true
  }

  lemma OthersEnterOthers(s: State, t: int, u: int, i: int)
    requires HolderInv(s.n, s.items, s.threads) && MayTouch(s, t, i) && u in s.threads && u != t
    ensures ItemOf(s.threads[u]) != Some(i)
  {
    if ItemOf(s.threads[u]).Some? {
      assert s.items.holder[ItemOf(s.threads[u]).value] == ByThread(u);
    }
  }

  lemma EnterWork(s: State, t: int, i: int)
    requires HolderInv(s.n, s.items, s.threads) && MayTouch(s, t, i) && t in s.threads && s.threads[t] == Enter(i)
    requires Callback(s.items.works[i]).1 != BadState
    ensures var s' := DoEnter(s, t, i, s.items.works[i]); s'.exited || Work(s') < Work(s)
  {
    hide HolderInv;
    var s' := DoEnter(s, t, i, s.items.works[i]);
    if !s'.exited {
      forall u | u in s.threads && u != t
        ensures Rank(s'.items.works, s.threads[u]) == Rank(s.items.works, s.threads[u])
      {
        OthersEnterOthers(s, t, u, i);
      }
      WorkDiffers(s, s', t, i);
    }
  }

  lemma StartWork(s: State, t: int, i: int, next: Next)
    requires MayTouch(s, t, i) && t in s.threads && s.threads[t] == EchoServer.Start(i, next) && i !in s.items.ops
    requires StartReady(s, i, s.items.works[i], next)
    ensures Work(DoStart(s, t, i, s.items.works[i], next)) < Work(s)
  {
    WorkDiffers(s, DoStart(s, t, i, s.items.works[i], next), t, i);
  }

  lemma RunWork(s: State, t: int)
    requires Inv(s) && EchoServer.Enabled(s, Run(t))
    ensures DoRun(s, t).exited || Work(DoRun(s, t)) < Work(s)
  {
    hide HolderInv, AllReady, Work, Arrived, StartReady;
    if s.threads[t] == Returning {
      ReturnWork(s, t);
    } else {
      var i := s.threads[t].i;
      ThreadIsReady(s, t, i);
      HeldNotStarted(s, t, i);
      if s.threads[t].Enter? {
        EnterInv(s, t, i);
        EnterWork(s, t, i);
      } else {
        StartWork(s, t, i, s.threads[t].next);
      }
    }
  }

  lemma ReturnWork(s: State, t: int)
    requires t in s.threads && s.threads[t] == Returning
    ensures Work(s.(threads := s.threads - {t})) < Work(s)
  {
    WorkDiffers(s, s.(threads := s.threads - {t}), t, 0);
  }

  lemma LaunchWork(s: State)
    requires HolderInv(s.n, s.items, s.threads) && AllReady(s) && EchoServer.Enabled(s, Launch)
    ensures Work(DoLaunch(s)) < Work(s)
  {
    LaunchHolder(s);
    ParkedIsReady(s, s.items.started);
    hide HolderInv, AllReady;
    WorkDiffers(s, DoLaunch(s), MAIN, 0);
  }

  lemma CompleteWork(s: State, s': State, i: int, w: Work)
    requires Busy(s.items, i) && s'.items == Complete(s.items, i, w) && w.state == s.items.works[i].state
    requires s'.threads == s.threads && s'.n == s.n && !s.items.ops[i].Receiving?
    ensures Work(s') < Work(s)
  {
    WorkDiffers(s, s', -1, i);
  }

  lemma CallBackWork(s: State, t: int, i: int)
    requires EchoServer.Enabled(s, CallBack(t, i)) && i in s.items.works
    requires OpReady(s, i, s.items.works[i], s.items.ops[i])
    ensures Work(DoCallBack(s, t, i)) < Work(s)
  {
    WorkDiffers(s, DoCallBack(s, t, i), t, i);
  }

  /** Every such event but the passing of time leaves less to do. */
  lemma WorkDecreases(s: State, e: Event)
    requires Inv(s) && EchoServer.Enabled(s, e) && Benign(e) && !e.Tick?
    ensures Step(s, e).exited || Work(Step(s, e)) < Work(s)
  {
    hide HolderInv, AllReady, Work, OpReady;
    match e
    case Launch => LaunchWork(s);
    case Run(t) => RunWork(s, t);
    case SleepDone(i, ok) => CompleteWork(s, Step(s, e), i, s.items.works[i].(succeeded := ok));
    case SendDone(i, ok) => CompleteWork(s, Step(s, e), i, s.items.works[i].(succeeded := true, slot := None));
    case CallBack(t, i) =>
      OpIsReady(s, i);
      CallBackWork(s, t, i);
  }

  lemma TickWork(s: State, d: int)
    requires EchoServer.Enabled(s, Tick(d))
    ensures Work(Step(s, Tick(d))) == Work(s)
  {
    WorkDiffers(s, Step(s, Tick(d)), 0, 0);
  }

  // ---- Settling down ----

  /** Every item is started and receiving, and no request is held. */
  ghost predicate Settled(s: State) {
    && !s.exited && s.items.started == s.n && s.threads == map[] && s.echo.open == map[]
    && forall i :: 0 <= i < s.n ==>
         i in s.items.works && s.items.works[i].state == RECV && i in s.items.ops && s.items.ops[i] == Receiving(false)
  }

  ghost predicate Hopeful(s: State) { forall i :: !Fails(s, i) && !Hangs(s, i) }

  lemma NoThreadNoHolder(s: State, i: int)
    requires HolderInv(s.n, s.items, s.threads) && s.threads == map[] && 0 <= i < s.items.started
    ensures i in s.items.ops
  {
    assert i in s.items.works && i in s.items.holder;
  }

  lemma ReceivingIsBare(s: State, i: int)
    requires HolderInv(s.n, s.items, s.threads) && AllReady(s) && i in s.items.ops && s.items.ops[i] == Receiving(false)
    ensures i in s.items.works && s.items.works[i].state == RECV && i !in s.echo.open
  {
    OpIsReady(s, i);
  }

  /** With no thread left and every operation a receive in progress, everything has settled. */
  lemma AllReceiving(s: State)
    requires Inv(s) && Accounted(s.n, s.echo) && !s.exited && s.threads == map[] && s.items.started == s.n
    requires forall i :: i in s.items.ops ==> s.items.ops[i] == Receiving(false)
    ensures Settled(s)
  {
    hide HolderInv, AllReady;
    forall i | 0 <= i < s.n
      ensures i in s.items.ops && i in s.items.works && s.items.works[i].state == RECV && i !in s.echo.open
    {
      NoThreadNoHolder(s, i);
      ReceivingIsBare(s, i);
    }
    var k := AnyKey(s.echo.open, -1);
  }

  lemma {:induction false} FreshThread(used: set<int>) returns (t: int)
    ensures t > 0 && forall u :: u in used ==> u < t
  {
    if u :| u in used {
      t := FreshThread(used - {u});
      assert forall z :: z in used && z != u ==> z in used - {u};
      t := if u < t then t else u + 1;
    } else {
      t := 1;
    }
  }

  /** An operation goes on at once, or, if it is a sleep, after some time. */
  lemma OpGoesOn(s: State, i: int) returns (d: int, e: Event)
    requires Inv(s) && !s.exited && !Hangs(s, i) && i in s.items.ops && s.items.ops[i] != Receiving(false)
    ensures d >= 0 && Benign(e) && !e.Tick? && EchoServer.Enabled(Step(s, Tick(d)), e)
  {
    hide HolderInv, AllReady;
    OpIsReady(s, i);
    d := 0;
    match s.items.ops[i]
    case Sending(false) => e := SendDone(i, true);
    case Sleeping(false, ms, since) =>
      d := if since + ms > s.echo.now then since + ms - s.echo.now else 0;
      e := SleepDone(i, true);
    case _ =>
      var used := set t | t in s.threads;
      var t := FreshThread(used);
      assert t !in used;
      e := CallBack(t, i);
  }

  /** A state that is not settled goes on, if need be after some time has passed. */
  lemma GoesOn(s: State) returns (d: int, e: Event)
    requires Inv(s) && Accounted(s.n, s.echo) && !s.exited && Hopeful(s)
    ensures d >= 0 && (Settled(s) || (Benign(e) && !e.Tick? && EchoServer.Enabled(Step(s, Tick(d)), e)))
  {
    hide HolderInv, AllReady, Accounted, Settled, Fails, Hangs;
    d := 0;
    var t := AnyKey(s.threads, 0);
    if t in s.threads {
      return 0, Run(t);
    }
    if i :| i in s.items.ops && s.items.ops[i] != Receiving(false) {
      d, e := OpGoesOn(s, i);
    } else if s.items.started < s.n {
      return 0, Launch;
    } else {
      StartedBound(s);
      AllReceiving(s);
      return 0, Launch;
    }
  }

  lemma StartedBound(s: State)
    requires HolderInv(s.n, s.items, s.threads)
    ensures s.items.started <= s.n
  {
  }

  lemma HopeStays(s: State, e: Event)
    requires Inv(s) && Hopeful(s) && EchoServer.Enabled(s, e) && Benign(e)
    ensures !Step(s, e).exited && Hopeful(Step(s, e))
  {
    hide Inv, Fails, Hangs, Step;
    ExitsIff(s, e);
    StepOrStay(s, e);
    EnabledRuns(s, e);
    forall i ensures !Fails(Step(s, e), i) && !Hangs(Step(s, e), i) {
      Prospects(s, e, i);
    }
  }

  lemma EnabledRuns(s: State, e: Event)
    requires EchoServer.Enabled(s, e)
    ensures !s.exited
  {
  }

  /** A run whose items neither fail nor hang can be continued until everything has settled. */
  lemma {:induction false} Settle(g: Config, run: seq<Event>) returns (more: seq<Event>)
    requires !After(g, run).exited && Hopeful(After(g, run))
    ensures (forall e :: e in more ==> Benign(e)) && Settled(After(g, run + more))
    decreases Work(After(g, run))
  {
    hide Inv, Step, Work, Hopeful, Accounted, Settled, Benign;
    var s := After(g, run);
    RunInv(g, run);
    RequestsAccounted(g, run);
    var d, e := GoesOn(s);
    if Settled(s) {
      more := [];
      assert run + more == run;
    } else {
      var s1 := Step(s, Tick(d));
      Ticking(s, d);
      AfterBoth(g, run, Tick(d), e);
      RunInv(g, run + [Tick(d)]);
      HopeStays(s1, e);
      WorkDecreases(s1, e);
      SettingIsSound(s);
      var rest := Settle(g, run + [Tick(d)] + [e]);
      more := [Tick(d)] + [e] + rest;
      assert run + more == run + [Tick(d)] + [e] + rest;
      BenignFirst(d, e, rest);
    }
  }

  lemma BenignFirst(d: int, e: Event, rest: seq<Event>)
    requires Benign(e) && forall k :: k in rest ==> Benign(k)
    ensures forall k :: k in [Tick(d)] + [e] + rest ==> Benign(k)
  {
  }

  lemma Ticking(s: State, d: int)
    requires Inv(s) && Hopeful(s) && !s.exited && d >= 0
    ensures var s' := Step(s, Tick(d)); Inv(s') && Hopeful(s') && !s'.exited && Work(s') == Work(s)
  {
    hide Inv, Work, Hopeful;
    StepInv(s, Tick(d));
    HopeStays(s, Tick(d));
    TickWork(s, d);
  }

  lemma SettingIsSound(s: State)
    requires Inv(s)
    ensures Work(s) >= 0
  {
    hide AllReady;
    WorkIsNatural(s);
  }

  lemma {:induction false} AfterBoth(g: Config, run: seq<Event>, a: Event, b: Event)
    ensures After(g, run + [a]) == Step(After(g, run), a)
    ensures After(g, run + [a] + [b]) == Step(Step(After(g, run), a), b)
  {
    hide Step;
    assert (run + [a])[..|run|] == run && (run + [a] + [b])[..|run| + 1] == run + [a];
  }

  // ---- Nothing helps an item that fails or hangs ----

  lemma {:induction false} NothingHelps(g: Config, run: seq<Event>, more: seq<Event>, i: int)
    requires After(g, run).exited || Fails(After(g, run), i) || Hangs(After(g, run), i)
    requires forall e :: e in more ==> Benign(e)
    ensures var s := After(g, run + more); s.exited || Fails(s, i) || Hangs(s, i)
  {
    hide Inv, Step, Fails, Hangs;
    if more == [] {
      assert run + more == run;
    } else {
      var before, e := more[..|more| - 1], more[|more| - 1];
      assert e in more && forall d :: d in before ==> d in more;
      NothingHelps(g, run, before, i);
      assert (run + more)[..|run + more| - 1] == run + before;
      var s := After(g, run + before);
      RunInv(g, run + before);
      StepOrStay(s, e);
      if EchoServer.Enabled(s, e) && !Step(s, e).exited {
        EnabledRuns(s, e);
        Prospects(s, e, i);
      }
    }
  }

  lemma SettledIsWell(s: State, i: int)
    requires Settled(s) && Inv(s)
    ensures !s.exited && !Fails(s, i) && !Hangs(s, i)
  {
    hide AllReady;
  }

  /**
   A run that has not exited can be continued, without a failure and without a new request, until every item
   receives and every request is answered or dropped, if and only if no item has failed and none is bound
   for a sleep that never ends.
   */
  lemma SettlesIff(g: Config, run: seq<Event>)
    requires !After(g, run).exited
    ensures (exists more :: (forall e :: e in more ==> Benign(e)) && Settled(After(g, run + more)))
            <==> forall i :: !Fails(After(g, run), i) && !Hangs(After(g, run), i)
  {
    hide Inv, Step, Fails, Hangs, Settled, Benign;
    if Hopeful(After(g, run)) {
      var more := Settle(g, run);
    } else {
      var i :| Fails(After(g, run), i) || Hangs(After(g, run), i);
      forall more | forall e :: e in more ==> Benign(e) ensures !Settled(After(g, run + more)) {
        NothingHelps(g, run, more, i);
        RunInv(g, run + more);
        if Settled(After(g, run + more)) {
          SettledIsWell(After(g, run + more), i);
        }
      }
    }
  }

  /** Once everything has settled, each request ever received has been answered or dropped. */
  lemma SettledIsAnswered(g: Config, run: seq<Event>, id: int)
    requires Settled(After(g, run)) && 0 <= id < |After(g, run).echo.taken|
    ensures var a := After(g, run).echo;
            (exists k :: DroppedAt(a, k, id)) || exists k :: AnsweredAt(a, k, id)
  {
    EachRequestKnown(g, run, id);
    assert forall i :: !HeldBy(After(g, run).echo, i, id);
  }
}
