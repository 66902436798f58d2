/**
 The latency ping-pong: one message given away and taken back at every call.  Each side's `nng::msg`,
 and each direction of the pair, holds the messages it owns.
 */
module Latency {

  /** The next call of a process, with the index of its loop. */
  datatype Client = SendTrip(i: nat) | RecvTrip(i: nat) | ClientDone
  datatype Server = RecvPing(i: nat) | SendPong(i: nat) | ServerDone | Died

  datatype Config = Config(clientSize: nat, serverSize: nat, trips: int, cap: nat)

  /** Sizes of the messages owned by the client, by the two directions of the pair and by the server. */
  datatype State = State(client: Client, server: Server, mine: seq<nat>, there: seq<nat>, theirs: seq<nat>,
                         back: seq<nat>)

  function Turns(g: Config): nat { if g.trips < 0 then 0 else g.trips }

  function ClientLoop(g: Config, i: nat): Client { if i < g.trips then SendTrip(i) else ClientDone }
  function ServerLoop(g: Config, i: nat): Server { if i < g.trips then RecvPing(i) else ServerDone }

  function Begin(g: Config): State { State(ClientLoop(g, 0), ServerLoop(g, 0), [g.clientSize], [], [], []) }

  predicate ClientCan(g: Config, s: State) {
    match s.client
    case SendTrip(_) => |s.there| < g.cap
    case RecvTrip(_) => s.back != []
    case ClientDone => false
  }

  predicate ServerCan(g: Config, s: State) {
    match s.server
    case RecvPing(_) => s.there != []
    case SendPong(_) => |s.back| < g.cap
    case _ => false
  }

  /** Receiving assigns to `msg`, which frees a message it may still own. */
  function ClientStep(g: Config, s: State): State
    requires ClientCan(g, s)
  {
    match s.client
    case SendTrip(i) => s.(client := RecvTrip(i), mine := [], there := s.there + s.mine)
    case RecvTrip(i) => s.(client := ClientLoop(g, i + 1), mine := [s.back[0]], back := s.back[1..])
  }

  function ServerStep(g: Config, s: State): State
    requires ServerCan(g, s)
  {
    match s.server
    case RecvPing(i) =>
      s.(server := if s.there[0] != g.serverSize then Died else SendPong(i), theirs := [s.there[0]],
         there := s.there[1..])
    case SendPong(i) => s.(server := ServerLoop(g, i + 1), theirs := [], back := s.back + s.theirs)
  }

  predicate Mismatch(g: Config) { g.trips > 0 && g.clientSize != g.serverSize }

  /** One message, of size `x`, in one of the four places. */
  predicate Single(s: State, x: nat) {
    || (s.mine == [x] && s.there == s.theirs == s.back == [])
    || (s.there == [x] && s.mine == s.theirs == s.back == [])
    || (s.theirs == [x] && s.mine == s.there == s.back == [])
    || (s.back == [x] && s.mine == s.there == s.theirs == [])
  }

  /** Exactly one message exists, it has the size the client made it with, and it is where the two processes think. */
  ghost predicate Inv(g: Config, s: State) {
    && Single(s, g.clientSize)
    && match s.client
       case SendTrip(i) => i < g.trips && s.mine != [] && s.server == RecvPing(i) && (i > 0 ==> !Mismatch(g))
       case RecvTrip(i) =>
         && i < g.trips
         && (match s.server
             case RecvPing(k) =>
               if k == i then s.there != [] && (i > 0 ==> !Mismatch(g))
               else k == i + 1 < g.trips && s.back != [] && !Mismatch(g)
             case SendPong(k) => k == i && s.theirs != [] && !Mismatch(g)
             case ServerDone => i + 1 == g.trips && s.back != [] && !Mismatch(g)
             case Died => s.theirs != [] && Mismatch(g))
       case ClientDone => s.mine != [] && s.server == ServerDone && !Mismatch(g)
  }

  /** Calls still to be made in a run without mismatch. */
  function Remaining(g: Config, s: State): int {
    (match s.client
     case SendTrip(i) => 2 * (Turns(g) - i)
     case RecvTrip(i) => 2 * (Turns(g) - i) - 1
     case ClientDone => 0) +
    (match s.server case RecvPing(i) => 2 * (Turns(g) - i) case SendPong(i) => 2 * (Turns(g) - i) - 1 case _ => 0)
  }

  lemma BeginInv(g: Config)
    ensures Inv(g, Begin(g)) && Remaining(g, Begin(g)) == 4 * Turns(g)
  {
  }

  lemma ClientStepInv(g: Config, s: State)
    requires Inv(g, s) && ClientCan(g, s)
    ensures Inv(g, ClientStep(g, s)) && 0 <= Remaining(g, ClientStep(g, s)) == Remaining(g, s) - 1
  {
  }

  lemma ServerStepInv(g: Config, s: State)
    requires Inv(g, s) && ServerCan(g, s)
    ensures Inv(g, ServerStep(g, s)) && 0 <= Remaining(g, ServerStep(g, s)) < Remaining(g, s)
    ensures !ServerStep(g, s).server.Died? ==> Remaining(g, ServerStep(g, s)) == Remaining(g, s) - 1
  {
  }

  /** Neither side waits for the other for ever, unless the server stopped at a message of the wrong size. */
  lemma NoDeadlock(g: Config, s: State)
    requires Inv(g, s) && g.cap >= 1 && !ClientCan(g, s) && !ServerCan(g, s)
    ensures s.server.Died? <==> Mismatch(g)
    ensures s.client.ClientDone? && s.server.ServerDone? <==> !Mismatch(g)
  {
  }

  /** One turn of a schedule: the chosen process makes its call, or waits if it cannot. */
  function Turn(g: Config, s: State, clientNext: bool): State {
    if clientNext && ClientCan(g, s) then ClientStep(g, s)
    else if !clientNext && ServerCan(g, s) then ServerStep(g, s)
    else s
  }

  function After(g: Config, schedule: seq<bool>): State {
    if schedule == [] then Begin(g) else Turn(g, After(g, schedule[..|schedule| - 1]), schedule[|schedule| - 1])
  }

  lemma {:induction false} ScheduleInv(g: Config, schedule: seq<bool>)
    ensures Inv(g, After(g, schedule))
  {
    BeginInv(g);
    if schedule != [] {
      var s, clientNext := After(g, schedule[..|schedule| - 1]), schedule[|schedule| - 1];
      ScheduleInv(g, schedule[..|schedule| - 1]);
      if clientNext && ClientCan(g, s) {
        ClientStepInv(g, s);
      } else if !clientNext && ServerCan(g, s) {
        ServerStepInv(g, s);
      }
    }
  }

  /** Under every schedule one message of the first size circulates, and a pair that has stopped has finished. */
  lemma OneMessageCirculates(g: Config, schedule: seq<bool>)
    requires g.cap >= 1
    ensures var s := After(g, schedule);
            && Single(s, g.clientSize)
            && (s.server.Died? ==> Mismatch(g))
            && (!ClientCan(g, s) && !ServerCan(g, s) ==>
                  if Mismatch(g) then s.server.Died?
                  else s == State(ClientDone, ServerDone, [g.clientSize], [], [], []))
  {
    ScheduleInv(g, schedule);
    if !ClientCan(g, After(g, schedule)) && !ServerCan(g, After(g, schedule)) {
      NoDeadlock(g, After(g, schedule));
    }
  }

  /** For any trip count and any order of the calls, the client ends with the message it began with. */
  method PingPong(g: Config) returns (s: State, calls: nat)
    requires g.cap >= 1
    ensures s.server.Died? <==> Mismatch(g)
    ensures !Mismatch(g) ==> s == State(ClientDone, ServerDone, [g.clientSize], [], [], []) && calls == 4 * Turns(g)
    ensures Single(s, g.clientSize)
  {
    s, calls := Begin(g), 0;
    BeginInv(g);
    while ClientCan(g, s) || ServerCan(g, s)
      invariant Inv(g, s) && 0 <= Remaining(g, s)
      invariant s.server.Died? || calls + Remaining(g, s) == 4 * Turns(g)
      decreases Remaining(g, s)
    {
      var clientNext := ClientCan(g, s);
      if ClientCan(g, s) && ServerCan(g, s) {
        clientNext := *;
      }
      if clientNext {
        ClientStepInv(g, s);
        s := ClientStep(g, s);
      } else {
        ServerStepInv(g, s);
        s := ServerStep(g, s);
      }
      calls := calls + 1;
    }
    NoDeadlock(g, s);
  }
}
