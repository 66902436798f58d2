/**
 The throughput client and server as two processes over a pair of lossless bounded FIFOs, scheduled in
 any order.  A FIFO holds the sizes of the messages in it.
 */
module Throughput {

  /** The next call a process makes; the index counts its loop. */
  datatype Client = SendSync | SendData(i: nat) | AwaitDone | ClientDone
  datatype Server = RecvSync | RecvData(i: nat) | SendDone | ServerDone | Died

  /** Message sizes of the two sides, their common count, and the capacities of the FIFOs. */
  datatype Config = Config(clientSize: nat, serverSize: nat, count: int, upCap: nat, downCap: nat)

  datatype State = State(client: Client, server: Server, up: seq<nat>, down: seq<nat>, upTotal: nat, downTotal: nat)

  const START := State(SendSync, RecvSync, [], [], 0, 0)

  /** How often a `for` loop up to `count` runs. */
  function Turns(g: Config): nat { if g.count < 0 then 0 else g.count }

  function NextSend(g: Config, i: nat): Client { if i < g.count then SendData(i) else AwaitDone }
  function NextRecv(g: Config, i: nat): Server { if i < g.count then RecvData(i) else SendDone }

  predicate ClientCan(g: Config, s: State) {
    match s.client
    case SendSync => |s.up| < g.upCap
    case SendData(_) => |s.up| < g.upCap
    case AwaitDone => s.down != []
    case ClientDone => false
  }

  predicate ServerCan(g: Config, s: State) {
    match s.server
    case RecvSync => s.up != []
    case RecvData(_) => s.up != []
    case SendDone => |s.down| < g.downCap
    case _ => false
  }

  function ClientStep(g: Config, s: State): State
    requires ClientCan(g, s)
  {
    match s.client
    case SendSync => s.(client := NextSend(g, 0), up := s.up + [0], upTotal := s.upTotal + 1)
    case SendData(i) => s.(client := NextSend(g, i + 1), up := s.up + [g.clientSize], upTotal := s.upTotal + 1)
    case AwaitDone => s.(client := ClientDone, down := s.down[1..])
  }

  function ServerStep(g: Config, s: State): State
    requires ServerCan(g, s)
  {
    match s.server
    case RecvSync => s.(server := NextRecv(g, 0), up := s.up[1..])
    case RecvData(i) =>
      s.(server := if s.up[0] != g.serverSize then Died else NextRecv(g, i + 1), up := s.up[1..])
    case SendDone => s.(server := ServerDone, down := s.down + [0], downTotal := s.downTotal + 1)
  }

  /** Data messages already sent, and received, when the processes are about to make these calls. */
  function SentUp(g: Config, c: Client): nat {
    match c case SendSync => 0 case SendData(i) => i + 1 case _ => Turns(g) + 1
  }

  function ReceivedUp(g: Config, v: Server): nat {
    match v case RecvSync => 0 case RecvData(i) => i + 1 case Died => 2 case _ => Turns(g) + 1
  }

  predicate Mismatch(g: Config) { g.count > 0 && g.clientSize != g.serverSize }

  /** The FIFO up holds what was sent and not yet received: the empty message first, then data. */
  ghost predicate Inv(g: Config, s: State) {
    && (s.client.SendData? ==> s.client.i < g.count)
    && (s.server.RecvData? ==> s.server.i < g.count && (s.server.i > 0 ==> g.clientSize == g.serverSize))
    && s.upTotal == SentUp(g, s.client) == ReceivedUp(g, s.server) + |s.up|
    && (forall k :: 0 <= k < |s.up| ==> s.up[k] == if ReceivedUp(g, s.server) + k == 0 then 0 else g.clientSize)
    && s.downTotal == (if s.server.ServerDone? then 1 else 0)
    && |s.down| == (if s.server.ServerDone? && !s.client.ClientDone? then 1 else 0)
    && (s.client.ClientDone? ==> s.server.ServerDone?)
    && (s.server.Died? ==> Mismatch(g))
    && (s.server.SendDone? || s.server.ServerDone? ==> !Mismatch(g))
  }

  /** Calls still to be made by both sides. */
  function Remaining(g: Config, s: State): int {
    (if s.client.ClientDone? then 0 else Turns(g) + 2 - SentUp(g, s.client)) +
    (if s.server.ServerDone? || s.server.Died? then 0 else Turns(g) + 2 - ReceivedUp(g, s.server))
  }

  lemma StartInv(g: Config)
    ensures Inv(g, START) && Remaining(g, START) == 2 * Turns(g) + 4
  {
  }

  lemma ClientStepInv(g: Config, s: State)
    requires Inv(g, s) && ClientCan(g, s)
    ensures Inv(g, ClientStep(g, s))
    ensures 0 <= Remaining(g, ClientStep(g, s)) == Remaining(g, s) - 1
  {
  }

  lemma ServerStepInv(g: Config, s: State)
    requires Inv(g, s) && ServerCan(g, s)
    ensures Inv(g, ServerStep(g, s))
    ensures var s' := ServerStep(g, s);
            0 <= Remaining(g, s') < Remaining(g, s) && (s'.server.Died? || Remaining(g, s') == Remaining(g, s) - 1)
  {
    assert s.up != [] ==> s.up[0] == if ReceivedUp(g, s.server) == 0 then 0 else g.clientSize;
  }

  predicate Finished(s: State) { s.client.ClientDone? && s.server.ServerDone? }

  /** With room for one message each way, the two never wait for each other. */
  lemma NoDeadlock(g: Config, s: State)
    requires Inv(g, s) && g.upCap >= 1 && g.downCap >= 1
    requires !ClientCan(g, s) && !ServerCan(g, s)
    ensures Finished(s) <==> !Mismatch(g)
    ensures s.server.Died? <==> Mismatch(g)
  {
  }

  /** When they finish, `count + 1` messages went one way, one the other, and both FIFOs are empty. */
  lemma ExactlyExchanged(g: Config, s: State)
    requires Inv(g, s) && Finished(s)
    ensures s.upTotal == Turns(g) + 1 && s.downTotal == 1 && s.up == [] && s.down == []
  {
  }

  /** One turn of a schedule: the chosen process makes its call, or waits if it cannot. */
  function Turn(g: Config, s: State, clientNext: bool): State {
    if clientNext && ClientCan(g, s) then ClientStep(g, s)
    else if !clientNext && ServerCan(g, s) then ServerStep(g, s)
    else s
  }

  function After(g: Config, schedule: seq<bool>): State {
    if schedule == [] then START else Turn(g, After(g, schedule[..|schedule| - 1]), schedule[|schedule| - 1])
  }

  lemma {:induction false} ScheduleInv(g: Config, schedule: seq<bool>)
    ensures Inv(g, After(g, schedule)) && 0 <= Remaining(g, After(g, schedule))
  {
    StartInv(g);
    if schedule != [] {
      var s, clientNext := After(g, schedule[..|schedule| - 1]), schedule[|schedule| - 1];
      ScheduleInv(g, schedule[..|schedule| - 1]);
      if clientNext && ClientCan(g, s) {
        ClientStepInv(g, s);
      } else if !clientNext && ServerCan(g, s) {
        ServerStepInv(g, s);
      }
    }
  }

  /** Under every schedule the size check fails only for a mismatch, and a pair that has stopped has finished. */
  lemma AnySchedule(g: Config, schedule: seq<bool>)
    requires g.upCap >= 1 && g.downCap >= 1
    ensures var s := After(g, schedule);
            && (s.server.Died? ==> Mismatch(g))
            && (!ClientCan(g, s) && !ServerCan(g, s) ==> if Mismatch(g) then s.server.Died? else Finished(s))
            && (Finished(s) ==> s.upTotal == Turns(g) + 1 && s.downTotal == 1 && s.up == s.down == [])
  {
    var s := After(g, schedule);
    ScheduleInv(g, schedule);
    if !ClientCan(g, s) && !ServerCan(g, s) {
      NoDeadlock(g, s);
    }
    if Finished(s) {
      ExactlyExchanged(g, s);
    }
  }

  /** Both processes run to the end in any order of their calls. */
  method RunBoth(g: Config) returns (s: State, calls: nat)
    requires g.upCap >= 1 && g.downCap >= 1
    ensures !ClientCan(g, s) && !ServerCan(g, s)
    ensures Finished(s) <==> !Mismatch(g)
    ensures s.server.Died? <==> Mismatch(g)
    ensures Finished(s) ==> s.upTotal == Turns(g) + 1 && s.downTotal == 1 && s.up == s.down == []
    ensures Finished(s) ==> calls == 2 * Turns(g) + 4
  {
    s, calls := START, 0;
    StartInv(g);
    while ClientCan(g, s) || ServerCan(g, s)
      invariant Inv(g, s) && 0 <= Remaining(g, s)
      invariant s.server.Died? || calls + Remaining(g, s) == 2 * Turns(g) + 4
      decreases Remaining(g, s)
    {
      var clientNext := ClientCan(g, s);
      if ClientCan(g, s) && ServerCan(g, s) {
        clientNext := *;
      }
      if clientNext {
        ClientStepInv(g, s);
        s := ClientStep(g, s);
      } else {
        ServerStepInv(g, s);
        s := ServerStep(g, s);
      }
      calls := calls + 1;
    }
    NoDeadlock(g, s);
    if Finished(s) {
      ExactlyExchanged(g, s);
    }
  }
}
