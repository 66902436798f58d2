/**
 The parallel delayed-echo servers: `n` work items driven by one callback, over contexts or over one
 raw socket.

 A callback updates its item and then starts an operation; the operation may complete, and the next
 callback of the item run, before the first one returns.  The token `holder` says who may touch an
 item; touching it without the token sets `fault`.
 */
module EchoServer {
  import opened Bytes
  import opened BigEndian
  import opened EchoSpec

  /** Contexts remember where a reply goes; on the raw socket the message header does. */
  datatype Transport = Contexts | RawSocket

  /** A message; `id` is the index of the request it came from. */
  datatype Msg = Msg(id: int, header: Bytes, body: Bytes)

  const INIT: int := 0
  const RECV: int := 1
  const WAIT: int := 2
  const SEND: int := 3

  /** A work item: its state, the message slot and last result of its aio, and the message it keeps. */
  datatype Work = Work(state: int, slot: Option<Msg>, msg: Option<Msg>, succeeded: bool)

  const NEW_WORK := Work(INIT, None, None, true)

  /** What a callback ends with: an operation to start, or an exception that becomes `exit(1)`. */
  datatype Next = StartRecv | StartSleep(ms: int) | StartSend | Throws | BadState

  function ReadDelay(body: Bytes): (d: nat)
    requires |body| >= 4
  {
    Decode(body[..4])
  }

  /** `server_cb` up to the point where it starts an operation; a null message is never dereferenced. */
  function Callback(w: Work): (Work, Next) {
    if w.state == INIT then (w.(state := RECV), StartRecv)
    else if w.state == RECV then
      if !w.succeeded then (w, Throws)
      else if w.slot == None then (w, BadState)
      else
        var m := w.slot.value;
        if |m.body| < 4 then (w.(slot := None), StartRecv)
        else (Work(WAIT, None, Some(m.(body := m.body[4..])), w.succeeded), StartSleep(ToInt32(ReadDelay(m.body))))
    else if w.state == WAIT then (w.(slot := w.msg, msg := None, state := SEND), StartSend)
    else if w.state == SEND then
      if !w.succeeded then (w, Throws) else (w.(state := RECV), StartRecv)
    else (w, BadState)
  }

  /** The work item as the object the callback is given. */
  class WorkItem {
    var state: int
    var slot: Option<Msg>
    var msg: Option<Msg>
    var succeeded: bool

    constructor ()
      ensures View() == NEW_WORK
    {
      state, slot, msg, succeeded := INIT, None, None, true;
    }

    function View(): Work
      reads this
    {
      Work(state, slot, msg, succeeded)
    }

    method ServerCb() returns (next: Next)
      modifies this
      ensures (View(), next) == Callback(old(View()))
    {
      if state == INIT {
        state := RECV;
        return StartRecv;
      } else if state == RECV {
        if !succeeded {
          return Throws;
        }
        if slot == None {
          return BadState;
        }
        var m := slot.value;
        slot := None;
        if |m.body| < 4 {
          return StartRecv;
        }
        var when := Decode(m.body[..4]);
        msg := Some(m.(body := m.body[4..]));
        state := WAIT;
        return StartSleep(ToInt32(when));
      } else if state == WAIT {
        slot := msg;
        msg := None;
        state := SEND;
        return StartSend;
      } else if state == SEND {
        if !succeeded {
          return Throws;
        }
        state := RECV;
        return StartRecv;
      } else {
        return BadState;
      }
    }
  }

  /** The start-up loops of `server`: every item is made, then every item starts receiving. */
  method StartUp(n: nat) returns (works: array<WorkItem?>)
    ensures fresh(works) && works.Length == n
    ensures forall i :: 0 <= i < n ==> works[i] != null && works[i].View() == Callback(NEW_WORK).0
    ensures forall i, k :: 0 <= i < k < n ==> works[i] != works[k]
  {
    works := new WorkItem?[n](_ => null);
    var i := 0;
    while i < n
      invariant 0 <= i <= n
      invariant forall k :: 0 <= k < i ==> works[k] != null && fresh(works[k]) && works[k].View() == NEW_WORK
      invariant forall j, k :: 0 <= j < k < i ==> works[j] != works[k]
    {
      works[i] := new WorkItem();
      i := i + 1;
    }
    i := 0;
    while i < n
      invariant 0 <= i <= n
      invariant forall k :: 0 <= k < n ==> works[k] != null && fresh(works[k])
      invariant forall j, k :: 0 <= j < k < n ==> works[j] != works[k]
      invariant forall k :: 0 <= k < n ==> works[k].View() == if k < i then Callback(NEW_WORK).0 else NEW_WORK
    {
      var _ := works[i].ServerCb();
      i := i + 1;
    }
  }

  // ---- The machine ----

  datatype Thread = Enter(i: int) | Start(i: int, next: Next) | Returning

  /** An operation in progress or completed; a sleep records its duration and when it began. */
  datatype Op = Receiving(completed: bool) | Sleeping(completed: bool, ms: int, since: int) | Sending(completed: bool)

  datatype Holder = Parked | ByThread(t: int) | ByLibrary

  datatype Items = Items(works: map<int, Work>, ops: map<int, Op>, holder: map<int, Holder>, started: int)

  /** The number of items, the transport, and whether the library sleeps for ever for a duration of -1. */
  datatype Config = Config(n: nat, transport: Transport, endless: bool)

  datatype State = State(n: int, transport: Transport, exited: bool, fault: bool,
                         threads: map<int, Thread>, items: Items, routes: map<int, Bytes>, echo: Echo)

  /** Thread 0 is the one that runs the start-up loop; callbacks run on the others. */
  const MAIN: int := 0

  function Fill<T>(n: nat, v: T): (m: map<int, T>)
    ensures forall i :: i in m <==> 0 <= i < n
    ensures forall i :: i in m ==> m[i] == v
  {
    if n == 0 then map[] else Fill(n - 1, v)[n - 1 := v]
  }

  function Begin(g: Config): State {
    State(g.n, g.transport, false, false, map[], Items(Fill(g.n, NEW_WORK), map[], Fill(g.n, Parked), 0), map[],
          EchoSpec.Start(g.endless))
  }

  function ItemOf(pc: Thread): Option<int> {
    if pc.Returning? then None else Some(pc.i)
  }

  datatype Event =
    | Tick(d: int)
    | Launch
    | Run(t: int)
    | RecvDone(i: int, ok: bool, route: Bytes, body: Bytes)
    | SleepDone(i: int, ok: bool)
    | SendDone(i: int, ok: bool)
    | CallBack(t: int, i: int)

  predicate Busy(it: Items, i: int) {
    i in it.works && i in it.ops && !it.ops[i].completed
  }

  /** A sleep can have ended without an error. */
  predicate SleepOver(a: Echo, ms: int, since: int) {
    (0 <= ms ==> since + ms <= a.now) && !(a.endless && ms == -1)
  }

  predicate Enabled(s: State, e: Event) {
    && !s.exited
    && match e
       case Tick(d) => d >= 0
       case Launch => s.items.started < s.n && MAIN !in s.threads
       case Run(t) => t in s.threads
       case RecvDone(i, _, _, _) => Busy(s.items, i) && s.items.ops[i].Receiving?
       case SleepDone(i, ok) =>
         && Busy(s.items, i) && s.items.ops[i].Sleeping?
         && (ok ==> SleepOver(s.echo, s.items.ops[i].ms, s.items.ops[i].since))
       case SendDone(i, _) => Busy(s.items, i) && s.items.ops[i].Sending?
       case CallBack(t, i) => i in s.items.ops && s.items.ops[i].completed && t != MAIN && t !in s.threads
  }

  predicate MayTouch(s: State, t: int, i: int) {
    i in s.items.works && i in s.items.holder && s.items.holder[i] == ByThread(t)
  }

  function DoLaunch(s: State): State {
    var i := s.items.started;
    s.(threads := s.threads[MAIN := Enter(i)],
       items := s.items.(holder := s.items.holder[i := ByThread(MAIN)], started := i + 1))
  }

  /** The callback drops a malformed message when it receives again without keeping it. */
  predicate DropsMessage(w: Work) {
    w.state == RECV && w.succeeded && w.slot.Some? && |w.slot.value.body| < 4
  }

  function Received(a: Echo, i: int, r: Request): Echo {
    a.(taken := a.taken + [r], open := a.open[i := |a.taken|])
  }

  function Discarded(a: Echo, i: int, id: int): Echo {
    a.(open := a.open - {i}, dropped := a.dropped + [id])
  }

  function Sent(a: Echo, i: int, p: Reply): Echo {
    a.(open := a.open - {i}, replies := a.replies + [p])
  }

  function DoEnter(s: State, t: int, i: int, w: Work): State {
    var (w', next) := Callback(w);
    if next == BadState then s.(fault := true, exited := true)
    else if next == Throws then s.(exited := true)
    else
      s.(threads := s.threads[t := Start(i, next)], items := s.items.(works := s.items.works[i := w']),
         echo := if DropsMessage(w) then Discarded(s.echo, i, w.slot.value.id) else s.echo)
  }

  /** Where the reply `m` of item `i` goes. */
  function RouteOf(s: State, i: int, m: Msg): Bytes {
    if s.transport == RawSocket then m.header else if i in s.routes then s.routes[i] else []
  }

  function OpFor(next: Next, now: int): Op {
    match next
    case StartSleep(ms) => Sleeping(false, ms, now)
    case StartSend => Sending(false)
    case _ => Receiving(false)
  }

  /** Starting the operation gives the item, and for a send its message, to the library. */
  function DoStart(s: State, t: int, i: int, w: Work, next: Next): State {
    if next == StartSend && w.slot == None then s.(fault := true)
    else
      s.(threads := s.threads[t := Returning],
         items := s.items.(ops := s.items.ops[i := OpFor(next, s.echo.now)], holder := s.items.holder[i := ByLibrary]),
         echo := if next != StartSend then s.echo
                 else Sent(s.echo, i,
                           Reply(w.slot.value.id, RouteOf(s, i, w.slot.value), w.slot.value.body, s.echo.now)))
  }

  function DoRun(s: State, t: int): State
    requires t in s.threads
  {
    match s.threads[t]
    case Returning => s.(threads := s.threads - {t})
    case Enter(i) => if MayTouch(s, t, i) then DoEnter(s, t, i, s.items.works[i]) else s.(fault := true)
    case Start(i, next) => if MayTouch(s, t, i) then DoStart(s, t, i, s.items.works[i], next) else s.(fault := true)
  }

  function Complete(it: Items, i: int, w: Work): Items
    requires i in it.ops
  {
    it.(works := it.works[i := w], ops := it.ops[i := it.ops[i].(completed := true)])
  }

  /** A request arrives: its route goes to the context or stays in the header. */
  function DoRecvDone(s: State, i: int, w: Work, ok: bool, route: Bytes, body: Bytes): State
    requires i in s.items.ops
  {
    if !ok then s.(items := Complete(s.items, i, w.(succeeded := false)))
    else
      var m := Msg(|s.echo.taken|, if s.transport == RawSocket then route else [], body);
      s.(items := Complete(s.items, i, w.(succeeded := true, slot := Some(m))),
         routes := s.routes[i := route], echo := Received(s.echo, i, Request(route, body, s.echo.now)))
  }

  /** A sleep that fails, or is aborted, may end at any time. */
  function DoSleepDone(s: State, i: int, w: Work, ok: bool): State
    requires i in s.items.ops
  {
    s.(items := Complete(s.items, i, w.(succeeded := ok)), echo := if ok then s.echo else Apply(s.echo, Cut(i)))
  }

  /** On success the library has taken the message out of the slot. */
  function DoSendDone(s: State, i: int, w: Work, ok: bool): State
    requires i in s.items.ops
  {
    s.(items := Complete(s.items, i, if ok then w.(succeeded := true, slot := None) else w.(succeeded := false)))
  }

  function DoCallBack(s: State, t: int, i: int): State {
    s.(threads := s.threads[t := Enter(i)],
       items := s.items.(ops := s.items.ops - {i}, holder := s.items.holder[i := ByThread(t)]))
  }

  function Do(s: State, e: Event): State
    requires Enabled(s, e)
  {
    match e
    case Tick(d) => s.(echo := s.echo.(now := s.echo.now + d))
    case Launch => DoLaunch(s)
    case Run(t) => DoRun(s, t)
    case RecvDone(i, ok, route, body) => DoRecvDone(s, i, s.items.works[i], ok, route, body)
    case SleepDone(i, ok) => DoSleepDone(s, i, s.items.works[i], ok)
    case SendDone(i, ok) => DoSendDone(s, i, s.items.works[i], ok)
    case CallBack(t, i) => DoCallBack(s, t, i)
  }

  function Step(s: State, e: Event): State {
    if Enabled(s, e) then Do(s, e) else s
  }

  function After(g: Config, run: seq<Event>): State {
    if run == [] then Begin(g) else Step(After(g, run[..|run| - 1]), run[|run| - 1])
  }
}
