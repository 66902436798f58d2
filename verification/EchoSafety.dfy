/** The invariant of the echo servers, and that both transports implement the delayed echo. */
module EchoSafety {
  import opened Bytes
  import opened EchoSpec
  import opened EchoServer

  ghost predicate HolderInv(n: int, it: Items, ths: map<int, Thread>) {
    && 0 <= it.started <= n
    && (forall i :: i in it.works <==> 0 <= i < n)
    && it.holder.Keys == it.works.Keys
    && (forall t :: t in ths && ItemOf(ths[t]).Some? ==>
                      ItemOf(ths[t]).value in it.holder && it.holder[ItemOf(ths[t]).value] == ByThread(t))
    && (forall i :: i in it.ops ==> i in it.holder && it.holder[i] == ByLibrary)
    && (forall i :: i in it.holder ==> match it.holder[i]
                                       case Parked => i >= it.started
                                       case ByThread(t) => i < it.started && t in ths && ItemOf(ths[t]) == Some(i)
                                       case ByLibrary => i < it.started && i in it.ops)
  }

  /** The item has no request. */
  predicate Bare(s: State, i: int) { i !in s.echo.open }

  /** `m` is the message of the item's request, with or without its first four bytes. */
  predicate Carries(s: State, i: int, m: Msg, trimmed: bool) {
    && Has(s.echo, i) && s.echo.open[i] == m.id
    && var r := s.echo.taken[m.id];
       && RouteOf(s, i, m) == r.route
       && r.at <= s.echo.now
       && if trimmed then WellFormed(r) && m.body == r.body[4..] else m.body == r.body
  }

  function Asked(s: State, m: Msg): int
    requires 0 <= m.id < |s.echo.taken| && WellFormed(s.echo.taken[m.id])
  {
    Delay(s.echo.taken[m.id])
  }

  predicate Matured(s: State, i: int, m: Msg) {
    Carries(s, i, m, true) && (m.id in s.echo.cut || Ripe(s.echo.endless, s.echo.taken[m.id], s.echo.now))
  }

  /** What a callback finds in the item. */
  predicate Arrived(s: State, i: int, w: Work) {
    if w.state == INIT then w == NEW_WORK && Bare(s, i)
    else if w.state == RECV then
      && w.msg == None
      && if w.succeeded then w.slot.Some? && Carries(s, i, w.slot.value, false) else w.slot == None && Bare(s, i)
    else if w.state == WAIT then w.slot == None && w.msg.Some? && Matured(s, i, w.msg.value)
    else w.state == SEND && w.msg == None && Bare(s, i) && (w.succeeded ==> w.slot == None)
  }

  predicate Receives(s: State, i: int, w: Work) {
    w.state == RECV && w.slot == None && w.msg == None && Bare(s, i)
  }

  predicate Sleeps(s: State, i: int, w: Work, ms: int, since: int) {
    && w.state == WAIT && w.slot == None && w.msg.Some? && Carries(s, i, w.msg.value, true)
    && ms == ToInt32(Asked(s, w.msg.value)) && s.echo.taken[w.msg.value.id].at <= since
  }

  predicate StartReady(s: State, i: int, w: Work, next: Next) {
    match next
    case StartRecv => Receives(s, i, w)
    case StartSleep(ms) => Sleeps(s, i, w, ms, s.echo.now)
    case StartSend => w.state == SEND && w.msg == None && w.slot.Some? && Matured(s, i, w.slot.value)
    case _ => false
  }

  predicate OpReady(s: State, i: int, w: Work, op: Op) {
    match op
    case Receiving(false) => Receives(s, i, w)
    case Sleeping(false, ms, since) => Sleeps(s, i, w, ms, since)
    case Sending(false) => w.state == SEND && w.msg == None && Bare(s, i)
    case Receiving(true) => w.state == RECV && Arrived(s, i, w)
    case Sleeping(true, _, _) => w.state == WAIT && Arrived(s, i, w)
    case Sending(true) => w.state == SEND && Arrived(s, i, w)
  }

  predicate Ready(s: State, i: int, h: Holder) {
    && i in s.items.works
    && match h
       case Parked => s.items.works[i] == NEW_WORK && Bare(s, i)
       case ByLibrary => i in s.items.ops && OpReady(s, i, s.items.works[i], s.items.ops[i])
       case ByThread(t) =>
         && t in s.threads
         && match s.threads[t]
            case Enter(_) => Arrived(s, i, s.items.works[i])
            case Start(_, next) => StartReady(s, i, s.items.works[i], next)
            case Returning => false
  }

  ghost predicate AllReady(s: State) {
    forall i :: i in s.items.holder ==> Ready(s, i, s.items.holder[i])
  }

  ghost predicate Inv(s: State) {
    !s.fault && HolderInv(s.n, s.items, s.threads) && AllReady(s)
  }

  // ---- Frames ----

  /** A step on behalf of item `i` (or of none) that only ever adds to what is known of the others. */
  ghost predicate Local(s: State, s': State, js: set<int>) {
    && s'.transport == s.transport && s'.echo.endless == s.echo.endless && s.echo.now <= s'.echo.now
    && (forall id :: id in s.echo.cut ==> id in s'.echo.cut)
    && |s.echo.taken| <= |s'.echo.taken|
    && (forall k :: 0 <= k < |s.echo.taken| ==> s'.echo.taken[k] == s.echo.taken[k])
    && (forall k :: k in s'.items.holder && k !in js ==> k in s.items.holder && s'.items.holder[k] == s.items.holder[k])
    && (forall k :: k in s.items.works && k !in js ==> k in s'.items.works && s'.items.works[k] == s.items.works[k])
    && (forall k :: k in s.items.ops && k !in js ==> k in s'.items.ops && s'.items.ops[k] == s.items.ops[k])
    && (forall u :: u in s.threads && ItemOf(s.threads[u]).Some? && ItemOf(s.threads[u]).value !in js ==>
                      u in s'.threads && s'.threads[u] == s.threads[u])
    && (forall k :: k in s'.echo.open && k !in js ==> k in s.echo.open)
    && (forall k :: k in s.echo.open && k !in js ==> k in s'.echo.open && s'.echo.open[k] == s.echo.open[k])
    && (forall k :: k !in js ==> (k in s.routes <==> k in s'.routes) && (k in s.routes ==> s.routes[k] == s'.routes[k]))
  }

  /** Nothing that is known of item `i` is affected. */
  ghost predicate Untouched(s: State, s': State, i: int) {
    && s'.transport == s.transport && s'.echo.endless == s.echo.endless && s.echo.now <= s'.echo.now
    && (forall id :: id in s.echo.cut ==> id in s'.echo.cut)
    && |s.echo.taken| <= |s'.echo.taken|
    && (forall k :: 0 <= k < |s.echo.taken| ==> s'.echo.taken[k] == s.echo.taken[k])
    && (i in s.echo.open <==> i in s'.echo.open) && (i in s.echo.open ==> s'.echo.open[i] == s.echo.open[i])
    && (i in s.routes <==> i in s'.routes) && (i in s.routes ==> s.routes[i] == s'.routes[i])
  }

  lemma StaysArrived(s: State, s': State, i: int, w: Work)
    requires Untouched(s, s', i) && Arrived(s, i, w)
    ensures Arrived(s', i, w)
  {
  }

  lemma StaysStartReady(s: State, s': State, i: int, w: Work, next: Next)
    requires Untouched(s, s', i) && StartReady(s, i, w, next)
    ensures StartReady(s', i, w, next)
  {
  }

  lemma StaysOpReady(s: State, s': State, i: int, w: Work, op: Op)
    requires Untouched(s, s', i) && OpReady(s, i, w, op)
    ensures OpReady(s', i, w, op)
  {
    hide Arrived;
    if op.completed {
      StaysArrived(s, s', i, w);
    }
  }

  lemma StaysReady(s: State, s': State, js: set<int>, i: int)
    requires Local(s, s', js) && i in s.items.holder && i !in js && Ready(s, i, s.items.holder[i])
    requires HolderInv(s.n, s.items, s.threads)
    ensures Ready(s', i, s.items.holder[i])
  {
    hide Arrived, StartReady, OpReady;
    assert Untouched(s, s', i);
    var w := s.items.works[i];
    match s.items.holder[i]
    case Parked =>
    case ByLibrary => StaysOpReady(s, s', i, w, s.items.ops[i]);
    case ByThread(t) =>
      if s.threads[t].Enter? { StaysArrived(s, s', i, w); } else { StaysStartReady(s, s', i, w, s.threads[t].next); }
  }

  lemma ReadyStep(s: State, s': State, js: set<int>)
    requires HolderInv(s.n, s.items, s.threads) && AllReady(s) && Local(s, s', js)
    requires forall i :: i in js && i in s'.items.holder ==> Ready(s', i, s'.items.holder[i])
    ensures AllReady(s')
  {
    forall i | i in s'.items.holder && i !in js ensures Ready(s', i, s'.items.holder[i]) {
      assert i in s.items.holder && s'.items.holder[i] == s.items.holder[i];
      hide Ready, HolderInv;
      StaysReady(s, s', js, i);
    }
  }

  /** The step worked on item `i` only, and whoever has it afterwards finds what it expects. */
  ghost predicate WorksOn(s: State, s': State, i: int) {
    Local(s, s', {i}) && (i in s'.items.holder ==> Ready(s', i, s'.items.holder[i]))
  }

  lemma WorkReady(s: State, s': State, i: int)
    requires HolderInv(s.n, s.items, s.threads) && AllReady(s) && WorksOn(s, s', i)
    ensures AllReady(s')
  {
    hide Local, Ready, HolderInv;
    ReadyStep(s, s', {i});
  }

  lemma OpIsReady(s: State, i: int)
    requires HolderInv(s.n, s.items, s.threads) && AllReady(s) && i in s.items.ops
    ensures i in s.items.works && OpReady(s, i, s.items.works[i], s.items.ops[i])
    ensures i in s.items.holder && s.items.holder[i] == ByLibrary
  {
    assert i in s.items.holder && s.items.holder[i] == ByLibrary;
    assert Ready(s, i, ByLibrary);
  }

  lemma ThreadIsReady(s: State, t: int, i: int)
    requires HolderInv(s.n, s.items, s.threads) && AllReady(s) && t in s.threads && ItemOf(s.threads[t]) == Some(i)
    ensures MayTouch(s, t, i)
    ensures s.threads[t].Enter? ==> Arrived(s, i, s.items.works[i])
    ensures s.threads[t].Start? ==> StartReady(s, i, s.items.works[i], s.threads[t].next)
  {
    assert i in s.items.holder && s.items.holder[i] == ByThread(t);
    assert Ready(s, i, ByThread(t));
  }

  // ---- Each step ----

  lemma BeginInv(g: Config)
    ensures Inv(Begin(g))
  {
  }

  lemma TickInv(s: State, d: int)
    requires Inv(s) && Enabled(s, Tick(d))
    ensures Inv(Do(s, Tick(d)))
  {
    hide HolderInv, AllReady;
    ReadyStep(s, Do(s, Tick(d)), {});
  }

  lemma LaunchHolder(s: State)
    requires HolderInv(s.n, s.items, s.threads) && s.items.started < s.n && MAIN !in s.threads
    ensures s.items.started in s.items.holder && s.items.holder[s.items.started] == Parked
    ensures HolderInv(s.n, DoLaunch(s).items, DoLaunch(s).threads)
  {
    assert s.items.started in s.items.works;
  }

  lemma LaunchWorks(s: State)
    requires MAIN !in s.threads && Ready(s, s.items.started, Parked)
    ensures WorksOn(s, DoLaunch(s), s.items.started)
  {
  }

  lemma ParkedIsReady(s: State, i: int)
    requires AllReady(s) && i in s.items.holder && s.items.holder[i] == Parked
    ensures Ready(s, i, Parked)
  {
  }

  lemma LaunchInv(s: State)
    requires Inv(s) && Enabled(s, Launch)
    ensures Inv(DoLaunch(s))
  {
    hide HolderInv, AllReady, WorksOn, Ready;
    LaunchHolder(s);
    ParkedIsReady(s, s.items.started);
    LaunchWorks(s);
    WorkReady(s, DoLaunch(s), s.items.started);
  }

  lemma CallBackHolder(s: State, t: int, i: int)
    requires HolderInv(s.n, s.items, s.threads) && i in s.items.ops && t !in s.threads
    ensures HolderInv(s.n, DoCallBack(s, t, i).items, DoCallBack(s, t, i).threads)
  {
  }

  lemma CallBackWorks(s: State, t: int, i: int)
    requires t !in s.threads && i in s.items.works && i in s.items.ops && s.items.ops[i].completed
    requires OpReady(s, i, s.items.works[i], s.items.ops[i])
    ensures WorksOn(s, DoCallBack(s, t, i), i)
  {
  }

  lemma CallBackInv(s: State, t: int, i: int)
    requires Inv(s) && Enabled(s, CallBack(t, i))
    ensures Inv(DoCallBack(s, t, i))
  {
    hide HolderInv, AllReady, WorksOn, OpReady;
    OpIsReady(s, i);
    CallBackHolder(s, t, i);
    CallBackWorks(s, t, i);
    WorkReady(s, DoCallBack(s, t, i), i);
  }

  lemma ReturnHolder(s: State, t: int)
    requires HolderInv(s.n, s.items, s.threads) && t in s.threads && s.threads[t] == Returning
    ensures HolderInv(s.n, s.items, s.threads - {t})
  {
  }

  lemma ReturnInv(s: State, t: int)
    requires Inv(s) && t in s.threads && s.threads[t] == Returning
    ensures Inv(s.(threads := s.threads - {t}))
  {
    hide HolderInv, AllReady;
    ReturnHolder(s, t);
    ReadyStep(s, s.(threads := s.threads - {t}), {});
  }

  lemma EnterLocal(s: State, t: int, i: int)
    requires t in s.threads && s.threads[t] == Enter(i) && i in s.items.works
    ensures Local(s, DoEnter(s, t, i, s.items.works[i]), {i})
  {
    hide Callback;
  }

  lemma EnterHolder(s: State, t: int, i: int)
    requires HolderInv(s.n, s.items, s.threads) && MayTouch(s, t, i) && t in s.threads && s.threads[t] == Enter(i)
    ensures var s' := DoEnter(s, t, i, s.items.works[i]); HolderInv(s'.n, s'.items, s'.threads)
  {
    hide Callback;
  }

  lemma EnterReady(s: State, t: int, i: int)
    requires t in s.threads && s.threads[t] == Enter(i) && MayTouch(s, t, i) && Arrived(s, i, s.items.works[i])
    ensures Callback(s.items.works[i]).1 != BadState
    ensures var s' := DoEnter(s, t, i, s.items.works[i]); !s'.exited && !s.exited ==> Ready(s', i, ByThread(t))
  {
  }

  lemma ExitedReady(s: State, t: int, i: int)
    requires t in s.threads && s.threads[t] == Enter(i) && MayTouch(s, t, i) && Arrived(s, i, s.items.works[i])
    requires Callback(s.items.works[i]).1 == Throws
    ensures var s' := DoEnter(s, t, i, s.items.works[i]); Ready(s', i, ByThread(t))
  {
    StaysArrived(s, DoEnter(s, t, i, s.items.works[i]), i, s.items.works[i]);
  }

  /** The callback has somewhere to go in every state it is entered in. */
  lemma EnterInv(s: State, t: int, i: int)
    requires Inv(s) && !s.exited && t in s.threads && s.threads[t] == Enter(i)
    ensures MayTouch(s, t, i) && Inv(DoEnter(s, t, i, s.items.works[i]))
    ensures Callback(s.items.works[i]).1 != BadState
  {
    hide HolderInv, AllReady, Local, Ready, Arrived, StartReady, Callback;
    ThreadIsReady(s, t, i);
    EnterHolder(s, t, i);
    EnterLocal(s, t, i);
    EnterReady(s, t, i);
    if Callback(s.items.works[i]).1 == Throws {
      ExitedReady(s, t, i);
    }
    WorkReady(s, DoEnter(s, t, i, s.items.works[i]), i);
  }

  lemma StartLocal(s: State, t: int, i: int, next: Next)
    requires t in s.threads && s.threads[t] == Start(i, next) && i in s.items.works
    ensures Local(s, DoStart(s, t, i, s.items.works[i], next), {i})
  {
    hide OpFor, RouteOf;
  }

  lemma StartHolder(s: State, t: int, i: int, next: Next)
    requires HolderInv(s.n, s.items, s.threads) && MayTouch(s, t, i) && t in s.threads && s.threads[t] == Start(i, next)
    ensures var s' := DoStart(s, t, i, s.items.works[i], next); HolderInv(s'.n, s'.items, s'.threads)
  {
    hide OpFor, RouteOf, Sent;
  }

  lemma StartMakesReady(s: State, t: int, i: int, next: Next)
    requires t in s.threads && s.threads[t] == Start(i, next) && MayTouch(s, t, i)
    requires StartReady(s, i, s.items.works[i], next)
    ensures var s' := DoStart(s, t, i, s.items.works[i], next); s'.fault == s.fault && Ready(s', i, ByLibrary)
    ensures var s' := DoStart(s, t, i, s.items.works[i], next); i in s'.items.holder && s'.items.holder[i] == ByLibrary
  {
  }

  lemma StartInv(s: State, t: int, i: int, next: Next)
    requires Inv(s) && t in s.threads && s.threads[t] == Start(i, next)
    ensures MayTouch(s, t, i) && Inv(DoStart(s, t, i, s.items.works[i], next))
  {
    hide HolderInv, AllReady, Local, Ready, Arrived, StartReady, OpFor, RouteOf;
    ThreadIsReady(s, t, i);
    StartHolder(s, t, i, next);
    StartLocal(s, t, i, next);
    StartMakesReady(s, t, i, next);
    WorkReady(s, DoStart(s, t, i, s.items.works[i], next), i);
  }

  lemma CompleteHolder(n: int, it: Items, ths: map<int, Thread>, i: int, w: Work)
    requires HolderInv(n, it, ths) && i in it.ops
    ensures HolderInv(n, Complete(it, i, w), ths)
  {
  }

  /** An operation of item `i` is in progress. */
  predicate Underway(s: State, i: int) {
    && Busy(s.items, i) && i in s.items.holder && s.items.holder[i] == ByLibrary
    && OpReady(s, i, s.items.works[i], s.items.ops[i])
  }

  lemma RecvDoneWorks(s: State, i: int, ok: bool, route: Bytes, body: Bytes)
    requires Underway(s, i) && s.items.ops[i].Receiving?
    ensures WorksOn(s, DoRecvDone(s, i, s.items.works[i], ok, route, body), i)
  {
  }

  lemma RecvDoneInv(s: State, i: int, ok: bool, route: Bytes, body: Bytes)
    requires Inv(s) && Enabled(s, RecvDone(i, ok, route, body))
    ensures Inv(DoRecvDone(s, i, s.items.works[i], ok, route, body))
  {
    hide HolderInv, AllReady, WorksOn, OpReady;
    OpIsReady(s, i);
    RecvDoneWorks(s, i, ok, route, body);
    var s' := DoRecvDone(s, i, s.items.works[i], ok, route, body);
    CompleteHolder(s.n, s.items, s.threads, i, s'.items.works[i]);
    WorkReady(s, s', i);
  }

  lemma SleepDoneLocal(s: State, i: int, ok: bool)
    requires Underway(s, i)
    ensures Local(s, DoSleepDone(s, i, s.items.works[i], ok), {i})
  {
  }

  lemma SleepDoneReady(s: State, i: int, ok: bool)
    requires Underway(s, i) && Enabled(s, SleepDone(i, ok))
    ensures Ready(DoSleepDone(s, i, s.items.works[i], ok), i, ByLibrary)
  {
  }

  lemma SleepDoneInv(s: State, i: int, ok: bool)
    requires Inv(s) && Enabled(s, SleepDone(i, ok))
    ensures Inv(DoSleepDone(s, i, s.items.works[i], ok))
  {
    hide HolderInv, AllReady, Local, Ready, OpReady, SleepOver, Apply;
    OpIsReady(s, i);
    SleepDoneLocal(s, i, ok);
    SleepDoneReady(s, i, ok);
    var s' := DoSleepDone(s, i, s.items.works[i], ok);
    CompleteHolder(s.n, s.items, s.threads, i, s'.items.works[i]);
    WorkReady(s, s', i);
  }

  lemma SendDoneWorks(s: State, i: int, ok: bool)
    requires Underway(s, i) && s.items.ops[i].Sending?
    ensures WorksOn(s, DoSendDone(s, i, s.items.works[i], ok), i)
  {
  }

  lemma SendDoneInv(s: State, i: int, ok: bool)
    requires Inv(s) && Enabled(s, SendDone(i, ok))
    ensures Inv(DoSendDone(s, i, s.items.works[i], ok))
  {
    hide HolderInv, AllReady, WorksOn, OpReady;
    OpIsReady(s, i);
    SendDoneWorks(s, i, ok);
    var s' := DoSendDone(s, i, s.items.works[i], ok);
    CompleteHolder(s.n, s.items, s.threads, i, s'.items.works[i]);
    WorkReady(s, s', i);
  }
}
