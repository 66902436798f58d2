/**
 `nng::msg` and the calls that take a message over: special members, consuming sends, receives and the
 message slot of an aio.  A wrapper or a slot holds a raw pointer; nothing but the code keeps two of
 them from holding the same one.
 */
module Messages {
  import opened Bytes

  const NULL: int := 0

  /** Live messages with their bodies; `misused` records a second free or the use of a null or freed message. */
  datatype Heap = Heap(live: map<int, Bytes>, misused: bool)

  function Free(h: Heap, m: int): Heap {
    if m == NULL then h
    else if m in h.live then h.(live := h.live - {m})
    else h.(misused := true)
  }

  /** `nng_msg_dup`: `p` is the new message, or null when it fails and writes nothing. */
  function Dup(h: Heap, m: int, p: int): Heap {
    if m !in h.live then h.(misused := true)
    else if p == NULL then h
    else h.(live := h.live[p := h.live[m]])
  }

  datatype Result = Result(heap: Heap, m: int, threw: bool)

  function Copied(h: Heap, rhs: int, p: int): Result {
    Result(Dup(h, rhs, p), p, p == NULL)
  }

  /** Copy assignment frees before it duplicates, and keeps the old pointer when that fails. */
  function CopyAssigned(h: Heap, m: int, rhs: int, p: int): Result {
    Result(Dup(Free(h, m), rhs, p), if p == NULL then m else p, p == NULL)
  }

  class Msg {
    var m: int

    constructor (m: int)
      ensures this.m == m
    {
      this.m := m;
    }

    constructor Move(rhs: Msg)
      modifies rhs
      ensures m == old(rhs.m) && rhs.m == NULL
    {
      m := rhs.m;
      new;
      rhs.m := NULL;
    }

    /** The copy constructor; null stands for the exception. */
    static method CopyOf(h: Heap, rhs: Msg, p: int) returns (h': Heap, made: Msg?)
      ensures h' == Copied(h, rhs.m, p).heap
      ensures made == null <==> Copied(h, rhs.m, p).threw
      ensures made != null ==> fresh(made) && made.m == p
    {
      h' := Dup(h, rhs.m, p);
      if p == NULL {
        return h', null;
      }
      made := new Msg(p);
    }

    method CopyAssign(h: Heap, rhs: Msg, p: int) returns (h': Heap, threw: bool)
      modifies this
      ensures this == rhs ==> h' == h && !threw && m == old(m)
      ensures this != rhs ==> Result(h', m, threw) == CopyAssigned(h, old(m), rhs.m, p)
    {
      h', threw := h, false;
      if this != rhs {
        if m != NULL {
          h' := Free(h', m);
        }
        h' := Dup(h', rhs.m, p);
        if p == NULL {
          return h', true;
        }
        m := p;
      }
    }

    method MoveAssign(h: Heap, rhs: Msg) returns (h': Heap)
      modifies this, rhs
      ensures this == rhs ==> h' == h && m == old(m)
      ensures this != rhs ==> h' == Free(h, old(m)) && m == old(rhs.m) && rhs.m == NULL
    {
      h' := h;
      if this != rhs {
        if m != NULL {
          h' := Free(h', m);
        }
        m := rhs.m;
        rhs.m := NULL;
      }
    }

    method Release() returns (out: int)
      modifies this
      ensures out == old(m) && m == NULL
    {
      out := m;
      m := NULL;
    }
  }

  /** A socket and what the library has taken over through it. */
  class Socket {
    var owned: set<int>

    constructor ()
      ensures owned == {}
    {
      owned := {};
    }

    /** `send(msg&&)`: the wrapper is emptied only when the library took the message. */
    method Send(msg: Msg, ok: bool) returns (threw: bool)
      modifies this, msg
      ensures threw <==> !ok
      ensures ok ==> owned == old(owned) + {old(msg.m)} && msg.m == NULL
      ensures !ok ==> owned == old(owned) && msg.m == old(msg.m)
    {
      if !ok {
        return true;
      }
      owned := owned + {msg.m};
      var _ := msg.Release();
      return false;
    }

    /** `p` is the message the library delivers; a receive that fails delivers none and throws. */
    method RecvMsg(p: int, ok: bool) returns (msg: Msg?)
      requires ok ==> p in owned
      modifies this
      ensures msg == null <==> !ok
      ensures ok ==> fresh(msg) && msg.m == p && owned == old(owned) - {p}
      ensures !ok ==> owned == old(owned)
    {
      if !ok {
        return null;
      }
      owned := owned - {p};
      msg := new Msg(p);
    }
  }

  /** The message slot of an aio. */
  class Aio {
    var slot: int

    constructor ()
      ensures slot == NULL
    {
      slot := NULL;
    }

    /** `set_msg(msg_view)`: whoever the view was taken from keeps its pointer. */
    method SetView(view: int)
      modifies this
      ensures slot == view
    {
      slot := view;
    }

    method SetMsg(msg: Msg)
      modifies this, msg
      ensures slot == old(msg.m) && msg.m == NULL
    {
      slot := msg.Release();
    }

    method ReleaseMsg() returns (msg: Msg)
      modifies this
      ensures fresh(msg) && msg.m == old(slot) && slot == NULL
    {
      var m := slot;
      slot := NULL;
      msg := new Msg(m);
    }
  }

  // ---- Any sequence of operations ----

  /** Where a message pointer can sit: in a wrapper or in the slot of an aio. */
  datatype Cell = Var(v: int) | Slot(a: int)

  /** `lib` is what the library has taken over, `raw` what the caller took out with `release`. */
  datatype World = World(heap: Heap, cells: map<Cell, int>, lib: set<int>, raw: set<int>)

  datatype Op =
    | Default(v: int)
    | Adopt(v: int, p: int)
    | New(v: int, p: int, body: Bytes)
    | CopyInit(v: int, w: int, p: int)
    | MoveInit(v: int, w: int)
    | CopyAssign(v: int, w: int, p: int)
    | MoveAssign(v: int, w: int)
    | Release(v: int)
    | Destroy(v: int)
    | Send(v: int, ok: bool)
    | Recv(v: int, p: int)
    | SetMsg(a: int, v: int)
    | SetView(a: int, p: int)
    | ReleaseMsg(a: int, v: int)
    | AioInit(a: int)
    | AioDestroy(a: int)
    | TakeSlot(a: int)
    | FillSlot(a: int, p: int)
    | Arrive(p: int, body: Bytes)
    | Dispose(p: int)

  const NOTHING := World(Heap(map[], false), map[], {}, {})

  predicate Fresh(h: Heap, p: int) { p == NULL || p !in h.live }

  /**
   Variables are initialised once and used while they live; the library takes no null message, delivers,
   stores and frees only what it has, and an allocation is new or null.
   */
  predicate Enabled(x: World, op: Op) {
    match op
    case Default(v) => Var(v) !in x.cells
    case Adopt(v, p) => Var(v) !in x.cells
    case New(v, p, _) => Var(v) !in x.cells && Fresh(x.heap, p)
    case CopyInit(v, w, p) => Var(v) !in x.cells && Var(w) in x.cells && Fresh(x.heap, p)
    case MoveInit(v, w) => Var(v) !in x.cells && Var(w) in x.cells
    case CopyAssign(v, w, p) => Var(v) in x.cells && Var(w) in x.cells && Fresh(Free(x.heap, x.cells[Var(v)]), p)
    case MoveAssign(v, w) => Var(v) in x.cells && Var(w) in x.cells
    case Release(v) => Var(v) in x.cells
    case Destroy(v) => Var(v) in x.cells
    case Send(v, ok) => Var(v) in x.cells && (ok ==> x.cells[Var(v)] != NULL)
    case Recv(v, p) => Var(v) !in x.cells && p in x.lib
    case SetMsg(a, v) => Slot(a) in x.cells && Var(v) in x.cells
    case SetView(a, p) => Slot(a) in x.cells
    case ReleaseMsg(a, v) => Slot(a) in x.cells && Var(v) !in x.cells
    case AioInit(a) => Slot(a) !in x.cells
    case AioDestroy(a) => Slot(a) in x.cells
    case TakeSlot(a) => Slot(a) in x.cells && x.cells[Slot(a)] != NULL
    case FillSlot(a, p) => Slot(a) in x.cells && p in x.lib
    case Arrive(p, _) => p != NULL && Fresh(x.heap, p)
    case Dispose(p) => p in x.lib
  }

  function Plus(s: set<int>, p: int): set<int> { if p == NULL then s else s + {p} }

  /** The pointer in `from` moves to `to`, over whatever `to` held. */
  function Shift(x: World, to: Cell, from: Cell): World
    requires from in x.cells
  {
    x.(cells := x.cells[to := x.cells[from]][from := NULL])
  }

  function Do(x: World, op: Op): World
    requires Enabled(x, op)
  {
    match op
    case Default(v) => x.(cells := x.cells[Var(v) := NULL])
    case Adopt(v, p) => x.(cells := x.cells[Var(v) := p], raw := x.raw - {p})
    case New(v, p, body) =>
      if p == NULL then x else x.(heap := x.heap.(live := x.heap.live[p := body]), cells := x.cells[Var(v) := p])
    case CopyInit(v, w, p) =>
      var r := Copied(x.heap, x.cells[Var(w)], p);
      x.(heap := r.heap, cells := if r.threw then x.cells else x.cells[Var(v) := r.m])
    case MoveInit(v, w) => Shift(x, Var(v), Var(w))
    case CopyAssign(v, w, p) =>
      if v == w then x
      else
        var r := CopyAssigned(x.heap, x.cells[Var(v)], x.cells[Var(w)], p);
        x.(heap := r.heap, cells := x.cells[Var(v) := r.m])
    case MoveAssign(v, w) =>
      if v == w then x else Shift(x.(heap := Free(x.heap, x.cells[Var(v)])), Var(v), Var(w))
    case Release(v) => x.(cells := x.cells[Var(v) := NULL], raw := Plus(x.raw, x.cells[Var(v)]))
    case Destroy(v) => x.(heap := Free(x.heap, x.cells[Var(v)]), cells := x.cells - {Var(v)})
    case Send(v, ok) => if ok then x.(cells := x.cells[Var(v) := NULL], lib := x.lib + {x.cells[Var(v)]}) else x
    case Recv(v, p) => x.(cells := x.cells[Var(v) := p], lib := x.lib - {p})
    case SetMsg(a, v) => Shift(x, Slot(a), Var(v))
    case SetView(a, p) => x.(cells := x.cells[Slot(a) := p], raw := x.raw - {p})
    case ReleaseMsg(a, v) => Shift(x, Var(v), Slot(a))
    case AioInit(a) => x.(cells := x.cells[Slot(a) := NULL])
    case AioDestroy(a) => x.(cells := x.cells - {Slot(a)})
    case TakeSlot(a) => x.(cells := x.cells[Slot(a) := NULL], lib := x.lib + {x.cells[Slot(a)]})
    case FillSlot(a, p) => x.(cells := x.cells[Slot(a) := p], lib := x.lib - {p})
    case Arrive(p, body) => x.(heap := x.heap.(live := x.heap.live[p := body]), lib := x.lib + {p})
    case Dispose(p) => x.(heap := Free(x.heap, p), lib := x.lib - {p})
  }

  function Step(x: World, op: Op): World {
    if Enabled(x, op) then Do(x, op) else x
  }

  function After(ops: seq<Op>): World {
    if ops == [] then NOTHING else Step(After(ops[..|ops| - 1]), ops[|ops| - 1])
  }

  /** Living variables and slots can be used in every way and with every outcome, each with itself, too. */
  lemma NothingForbidden(x: World, v: int, w: int, u: int, p: int, body: Bytes, ok: bool)
    requires Var(v) in x.cells && Var(w) in x.cells && Var(u) !in x.cells
    ensures Enabled(x, MoveAssign(v, w)) && Enabled(x, Release(v)) && Enabled(x, Destroy(v))
    ensures Enabled(x, MoveInit(u, v))
    ensures Enabled(x, Send(v, false)) && (x.cells[Var(v)] != NULL ==> Enabled(x, Send(v, ok)))
    ensures Enabled(x, Default(u)) && Enabled(x, Adopt(u, p))
    ensures p == NULL || p !in x.heap.live ==>
              Enabled(x, New(u, p, body)) && Enabled(x, CopyInit(u, v, p)) && Enabled(x, CopyAssign(v, w, p))
    ensures p in x.lib ==> Enabled(x, Recv(u, p)) && Enabled(x, Dispose(p))
    ensures p != NULL && p !in x.heap.live ==> Enabled(x, Arrive(p, body))
  {
  }

  /** The same for the operations on the slot of an aio. */
  lemma NoSlotForbidden(x: World, v: int, u: int, a: int, p: int)
    requires Var(v) in x.cells && Var(u) !in x.cells && Slot(a) in x.cells
    ensures Enabled(x, SetMsg(a, v)) && Enabled(x, SetView(a, p)) && Enabled(x, ReleaseMsg(a, u))
    ensures Enabled(x, AioDestroy(a)) && (x.cells[Slot(a)] != NULL ==> Enabled(x, TakeSlot(a)))
    ensures p in x.lib ==> Enabled(x, FillSlot(a, p))
    ensures forall b :: Slot(b) !in x.cells ==> Enabled(x, AioInit(b))
  {
  }

  // ---- Ownership ----

  datatype Owner = Held(c: Cell) | Library | Caller

  predicate Owns(x: World, o: Owner, p: int) {
    match o
    case Held(c) => c in x.cells && x.cells[c] == p
    case Library => p in x.lib
    case Caller => p in x.raw
  }

  /** Every live message has exactly one owner, and owners hold live messages only. */
  ghost predicate Linear(x: World) {
    && !x.heap.misused
    && NULL !in x.heap.live
    && (forall c :: c in x.cells && x.cells[c] != NULL ==> x.cells[c] in x.heap.live)
    && x.lib <= x.heap.live.Keys && x.raw <= x.heap.live.Keys && x.lib !! x.raw
    && (forall c, d :: c in x.cells && d in x.cells && c != d && x.cells[c] != NULL ==> x.cells[c] != x.cells[d])
    && (forall c :: c in x.cells ==> x.cells[c] !in x.lib && x.cells[c] !in x.raw)
    && (forall p :: p in x.heap.live ==> p in x.lib || p in x.raw || exists c :: Owns(x, Held(c), p))
  }

  /** What `Linear` says, owner by owner. */
  lemma ExactlyOneOwner(x: World, p: int)
    requires Linear(x)
    ensures p in x.heap.live <==> p != NULL && exists o :: Owns(x, o, p)
    ensures forall o, q :: p != NULL && Owns(x, o, p) && Owns(x, q, p) ==> o == q
  {
    if p in x.heap.live {
      assert p in x.lib ==> Owns(x, Library, p);
      assert p in x.raw ==> Owns(x, Caller, p);
    }
  }

  /** Storing `p` in an empty cell: null changes nothing, and anything else has to be the caller's to give. */
  predicate Giveable(x: World, p: int) { p == NULL || p in x.raw }

  /**
   What the caller has to see to: a message is copied only from a wrapper that holds one, a copy
   assignment that fails has nothing to replace, an adopted pointer is the caller's, and a slot is empty
   when it is set, when a receive completes into it and when its aio is destroyed.  A view put into a
   slot is the caller's, or is what the slot holds already.
   */
  predicate Careful(x: World, op: Op)
    requires Enabled(x, op)
  {
    match op
    case Adopt(_, p) => Giveable(x, p)
    case CopyInit(_, w, _) => x.cells[Var(w)] != NULL
    case CopyAssign(v, w, p) => v == w || (x.cells[Var(w)] != NULL && (p != NULL || x.cells[Var(v)] == NULL))
    case SetMsg(a, _) => x.cells[Slot(a)] == NULL
    case SetView(a, p) => p == x.cells[Slot(a)] || (x.cells[Slot(a)] == NULL && Giveable(x, p))
    case AioDestroy(a) => x.cells[Slot(a)] == NULL
    case FillSlot(a, _) => x.cells[Slot(a)] == NULL
    case _ => true
  }

  lemma OwnersStay(x: World, x': World, c: Cell, d: Cell)
    requires Linear(x)
    requires forall u :: u in x.cells && u != c && u != d ==> u in x'.cells && x'.cells[u] == x.cells[u]
    ensures forall p :: p in x.heap.live && p !in x.lib && p !in x.raw ==>
                          Owns(x, Held(c), p) || Owns(x, Held(d), p) || exists u :: Owns(x', Held(u), p)
  {
    forall p | p in x.heap.live && p !in x.lib && p !in x.raw && !Owns(x, Held(c), p) && !Owns(x, Held(d), p)
      ensures exists u :: Owns(x', Held(u), p)
    {
      var u :| Owns(x, Held(u), p);
      assert Owns(x', Held(u), p);
    }
  }

  // ---- What an operation can do to one or two cells ----

  lemma EmptiedLinear(x: World, c: Cell)
    requires Linear(x) && c in x.cells
    ensures Linear(x.(heap := Free(x.heap, x.cells[c]), cells := x.cells[c := NULL]))
  {
    OwnersStay(x, x.(heap := Free(x.heap, x.cells[c]), cells := x.cells[c := NULL]), c, c);
  }

  lemma EndedLinear(x: World, c: Cell)
    requires Linear(x) && c in x.cells
    ensures Linear(x.(heap := Free(x.heap, x.cells[c]), cells := x.cells - {c}))
  {
    OwnersStay(x, x.(heap := Free(x.heap, x.cells[c]), cells := x.cells - {c}), c, c);
  }

  lemma FilledLinear(x: World, c: Cell, p: int, body: Bytes)
    requires Linear(x) && (c in x.cells ==> x.cells[c] == NULL) && p != NULL && p !in x.heap.live
    ensures Linear(x.(heap := x.heap.(live := x.heap.live[p := body]), cells := x.cells[c := p]))
  {
    var x' := x.(heap := x.heap.(live := x.heap.live[p := body]), cells := x.cells[c := p]);
    OwnersStay(x, x', c, c);
    assert Owns(x', Held(c), p);
  }

  lemma ShiftLinear(x: World, to: Cell, from: Cell)
    requires Linear(x) && from in x.cells && to != from && (to in x.cells ==> x.cells[to] == NULL)
    ensures Linear(Shift(x, to, from))
  {
    OwnersStay(x, Shift(x, to, from), to, from);
    assert Owns(Shift(x, to, from), Held(to), x.cells[from]);
  }

  lemma HandedLinear(x: World, c: Cell)
    requires Linear(x) && c in x.cells
    ensures Linear(x.(cells := x.cells[c := NULL], lib := Plus(x.lib, x.cells[c])))
  {
    OwnersStay(x, x.(cells := x.cells[c := NULL], lib := Plus(x.lib, x.cells[c])), c, c);
  }

  lemma ReleasedLinear(x: World, c: Cell)
    requires Linear(x) && c in x.cells
    ensures Linear(x.(cells := x.cells[c := NULL], raw := Plus(x.raw, x.cells[c])))
  {
    OwnersStay(x, x.(cells := x.cells[c := NULL], raw := Plus(x.raw, x.cells[c])), c, c);
  }

  lemma TakenLinear(x: World, c: Cell, p: int)
    requires Linear(x) && (c in x.cells ==> x.cells[c] == NULL) && p in x.lib
    ensures Linear(x.(cells := x.cells[c := p], lib := x.lib - {p}))
  {
    OwnersStay(x, x.(cells := x.cells[c := p], lib := x.lib - {p}), c, c);
    assert Owns(x.(cells := x.cells[c := p], lib := x.lib - {p}), Held(c), p);
  }

  lemma AdoptedLinear(x: World, c: Cell, p: int)
    requires Linear(x) && (c in x.cells ==> x.cells[c] == NULL) && p in x.raw
    ensures Linear(x.(cells := x.cells[c := p], raw := x.raw - {p}))
  {
    OwnersStay(x, x.(cells := x.cells[c := p], raw := x.raw - {p}), c, c);
    assert Owns(x.(cells := x.cells[c := p], raw := x.raw - {p}), Held(c), p);
  }

  lemma OtherLinear(x: World, op: Op)
    requires Linear(x) && Enabled(x, op) && (op.Default? || op.AioInit? || op.Arrive? || op.Dispose?)
    ensures Linear(Do(x, op))
  {
    var c := if op.Default? then Var(op.v) else if op.AioInit? then Slot(op.a) else Var(0);
    if op.Default? || op.AioInit? {
      OwnersStay(x, Do(x, op), c, c);
    } else {
      forall p | p in x.heap.live && p !in x.lib && p !in x.raw ensures exists u :: Owns(Do(x, op), Held(u), p) {
        var u :| Owns(x, Held(u), p);
        assert Owns(Do(x, op), Held(u), p);
      }
    }
  }

  lemma MoveAssignLinear(x: World, v: int, w: int)
    requires Linear(x) && Enabled(x, MoveAssign(v, w)) && v != w
    ensures Linear(Do(x, MoveAssign(v, w)))
  {
    EmptiedLinear(x, Var(v));
    var x1 := x.(heap := Free(x.heap, x.cells[Var(v)]), cells := x.cells[Var(v) := NULL]);
    ShiftLinear(x1, Var(v), Var(w));
    assert Shift(x1, Var(v), Var(w)) == Do(x, MoveAssign(v, w)) by {
      assert x.cells[Var(v) := NULL][Var(v) := x.cells[Var(w)]][Var(w) := NULL]
          == x.cells[Var(v) := x.cells[Var(w)]][Var(w) := NULL];
    }
  }

  lemma CopyAssignLinear(x: World, v: int, w: int, p: int)
    requires Linear(x) && Enabled(x, CopyAssign(v, w, p)) && v != w && Careful(x, CopyAssign(v, w, p))
    ensures Linear(Do(x, CopyAssign(v, w, p)))
  {
    if p == NULL {
      assert x.cells[Var(v) := NULL] == x.cells;
    } else {
      EmptiedLinear(x, Var(v));
      var x1 := x.(heap := Free(x.heap, x.cells[Var(v)]), cells := x.cells[Var(v) := NULL]);
      FilledLinear(x1, Var(v), p, x.heap.live[x.cells[Var(w)]]);
      assert x1.cells[Var(v) := p] == x.cells[Var(v) := p];
    }
  }

  lemma CarefulLinear(x: World, op: Op)
    requires Linear(x) && Enabled(x, op) && Careful(x, op)
    ensures Linear(Do(x, op))
  {
    match op
    case Adopt(v, p) => if p == NULL { OtherLinear(x, Default(v)); } else { AdoptedLinear(x, Var(v), p); }
    case New(v, p, body) => if p != NULL { FilledLinear(x, Var(v), p, body); }
    case CopyInit(v, w, p) => if p != NULL { FilledLinear(x, Var(v), p, x.heap.live[x.cells[Var(w)]]); }
    case MoveInit(v, w) => ShiftLinear(x, Var(v), Var(w));
    case CopyAssign(v, w, p) => if v != w { CopyAssignLinear(x, v, w, p); }
    case MoveAssign(v, w) => if v != w { MoveAssignLinear(x, v, w); }
    case Release(v) => ReleasedLinear(x, Var(v));
    case Destroy(v) => EndedLinear(x, Var(v));
    case Send(v, ok) => if ok { HandedLinear(x, Var(v)); }
    case Recv(v, p) => TakenLinear(x, Var(v), p);
    case SetMsg(a, v) => ShiftLinear(x, Slot(a), Var(v));
    case SetView(a, p) =>
      if p != x.cells[Slot(a)] { AdoptedLinear(x, Slot(a), p); } else { assert Do(x, op) == x; }
    case ReleaseMsg(a, v) => ShiftLinear(x, Var(v), Slot(a));
    case TakeSlot(a) => HandedLinear(x, Slot(a));
    case FillSlot(a, p) => TakenLinear(x, Slot(a), p);
    case AioDestroy(a) => EndedLinear(x, Slot(a));
    case _ => OtherLinear(x, op);
  }

  /** What an operation does to the slot of aio `a`: it is set, filled or gone. */
  predicate Overwrites(op: Op) { op.SetMsg? || op.SetView? || op.FillSlot? || op.AioDestroy? }

  /** The message in a slot that is overwritten or destroyed lives on without an owner. */
  lemma OverwrittenIsLost(x: World, op: Op, lost: int)
    requires Linear(x) && Enabled(x, op) && Overwrites(op) && lost == x.cells[Slot(op.a)] && lost != NULL
    requires op.SetView? ==> op.p != lost
    ensures lost in Do(x, op).heap.live && forall o :: !Owns(Do(x, op), o, lost)
    ensures !Linear(Do(x, op))
  {
    var x' := Do(x, op);
    assert lost in x'.heap.live && lost !in x'.lib && lost !in x'.raw;
    forall o ensures !Owns(x', o, lost) {
      if o.Held? {
        assert !Owns(x, Held(o.c), lost) || o.c == Slot(op.a);
      }
    }
  }

  /** Storing what is not the caller's gives a message a second owner, or the cell a dead one. */
  lemma StoredIsShared(x: World, c: Cell, p: int)
    requires Linear(x) && (c in x.cells ==> x.cells[c] == NULL) && !Giveable(x, p)
    ensures !Linear(x.(cells := x.cells[c := p], raw := x.raw - {p}))
  {
    var x' := x.(cells := x.cells[c := p], raw := x.raw - {p});
    assert c in x'.cells && x'.cells[c] == p;
    if p in x.heap.live && p !in x.lib {
      var d :| Owns(x, Held(d), p);
      assert d != c && d in x'.cells && x'.cells[d] == p;
    }
  }

  /**
   Each careless operation breaks ownership at once: a message is lost or shared, a freed pointer stays, or
   null is copied.
   */
  lemma CarelessNotLinear(x: World, op: Op)
    requires Linear(x) && Enabled(x, op) && !Careful(x, op)
    ensures !Linear(Do(x, op))
  {
    match op
    case SetMsg(a, _) => OverwrittenIsLost(x, op, x.cells[Slot(a)]);
    case SetView(a, p) =>
      if x.cells[Slot(a)] != NULL { OverwrittenIsLost(x, op, x.cells[Slot(a)]); } else { StoredIsShared(x, Slot(a),
          p); }
    case Adopt(v, p) => StoredIsShared(x, Var(v), p);
    case FillSlot(a, _) => OverwrittenIsLost(x, op, x.cells[Slot(a)]);
    case AioDestroy(a) => OverwrittenIsLost(x, op, x.cells[Slot(a)]);
    case CopyAssign(v, w, _) =>
      var x' := Do(x, op);
      if x.cells[Var(w)] == NULL { assert x'.heap.misused; } else { assert x'.cells[Var(v)] !in x'.heap.live; }
    case CopyInit(_, w, _) => assert Do(x, op).heap.misused;
  }

  /** An operation keeps every message with exactly one owner if and only if it is careful. */
  lemma StepLinearIff(x: World, op: Op)
    requires Linear(x) && Enabled(x, op)
    ensures Linear(Step(x, op)) <==> Careful(x, op)
  {
    if Careful(x, op) {
      CarefulLinear(x, op);
    } else {
      CarelessNotLinear(x, op);
    }
  }

  predicate CarefulRun(ops: seq<Op>) {
    ops != [] ==>
      var x, op := After(ops[..|ops| - 1]), ops[|ops| - 1];
      CarefulRun(ops[..|ops| - 1]) && (Enabled(x, op) ==> Careful(x, op))
  }

  /** Over any careful run no message is freed twice, used after its free, shared or lost. */
  lemma {:induction false} OwnershipIsLinear(ops: seq<Op>)
    requires CarefulRun(ops)
    ensures Linear(After(ops))
  {
    if ops != [] {
      var x, op := After(ops[..|ops| - 1]), ops[|ops| - 1];
      OwnershipIsLinear(ops[..|ops| - 1]);
      if Enabled(x, op) {
        StepLinearIff(x, op);
      }
    }
  }

  /** Operations that copy a message, or take a pointer from outside or from a wrapper into a slot. */
  predicate CopiesOrStores(op: Op) { op.CopyInit? || op.CopyAssign? || op.SetMsg? || op.SetView? || op.Adopt? }

  /** A receive completes into an emptied slot, and an aio is destroyed with an emptied slot. */
  predicate MeetsEmptySlot(x: World, op: Op) {
    op.FillSlot? || op.AioDestroy? ==> Slot(op.a) !in x.cells || x.cells[Slot(op.a)] == NULL
  }

  /**
   Moves, sends and receives need no other care than this: the message of a receive is taken out of its
   aio before the aio is used for another receive or destroyed.
   */
  lemma {:induction false} MovesNeedEmptiedSlots(ops: seq<Op>)
    requires forall op :: op in ops ==> !CopiesOrStores(op)
    requires forall i :: 0 <= i < |ops| ==> MeetsEmptySlot(After(ops[..i]), ops[i])
    ensures CarefulRun(ops) && Linear(After(ops))
  {
    if ops != [] {
      var n := |ops| - 1;
      assert ops[n] in ops;
      forall i | 0 <= i < n ensures MeetsEmptySlot(After(ops[..n][..i]), ops[..n][i]) {
        assert ops[..n][..i] == ops[..i];
      }
      MovesNeedEmptiedSlots(ops[..n]);
    }
    OwnershipIsLinear(ops);
  }

  /** Two receives on one aio, with nothing taken out of it between them, lose the first message. */
  lemma SecondReceiveLoses(x: World, a: int, p: int, q: int)
    requires Linear(x) && Enabled(x, FillSlot(a, p)) && x.cells[Slot(a)] == NULL && q in x.lib && q != p
    ensures var x' := Step(Step(x, FillSlot(a, p)), FillSlot(a, q));
            !x'.heap.misused && p in x'.heap.live && forall o :: !Owns(x', o, p)
  {
    CarefulLinear(x, FillSlot(a, p));
    OverwrittenIsLost(Do(x, FillSlot(a, p)), FillSlot(a, q), p);
  }

  // ---- What every operation does to the messages and their owners ----

  /** Who `p` passes to, if the operation makes it or hands it on. */
  function Receiver(x: World, op: Op, p: int): Option<Owner>
    requires Enabled(x, op)
  {
    match op
    case Adopt(v, k) => if k == p then Some(Held(Var(v))) else None
    case New(v, k, _) => if k == p then Some(Held(Var(v))) else None
    case CopyInit(v, _, k) => if k == p then Some(Held(Var(v))) else None
    case MoveInit(v, w) => if x.cells[Var(w)] == p then Some(Held(Var(v))) else None
    case CopyAssign(v, w, k) => if v != w && k == p then Some(Held(Var(v))) else None
    case MoveAssign(v, w) => if v != w && x.cells[Var(w)] == p then Some(Held(Var(v))) else None
    case Release(v) => if x.cells[Var(v)] == p then Some(Caller) else None
    case Send(v, ok) => if ok && x.cells[Var(v)] == p then Some(Library) else None
    case Recv(v, k) => if k == p then Some(Held(Var(v))) else None
    case SetMsg(a, v) => if x.cells[Var(v)] == p then Some(Held(Slot(a))) else None
    case SetView(a, k) => if k == p then Some(Held(Slot(a))) else None
    case ReleaseMsg(a, v) => if x.cells[Slot(a)] == p then Some(Held(Var(v))) else None
    case TakeSlot(a) => if x.cells[Slot(a)] == p then Some(Library) else None
    case FillSlot(a, k) => if k == p then Some(Held(Slot(a))) else None
    case Arrive(k, _) => if k == p then Some(Library) else None
    case _ => None
  }

  /** The body of the message the operation makes, if it makes one. */
  function Makes(x: World, op: Op, p: int): Option<Bytes>
    requires Enabled(x, op)
  {
    match op
    case New(_, k, body) => if k == p then Some(body) else None
    case Arrive(k, body) => if k == p then Some(body) else None
    case CopyInit(_, w, k) =>
      if k == p && x.cells[Var(w)] in x.heap.live then Some(x.heap.live[x.cells[Var(w)]]) else None
    case CopyAssign(v, w, k) =>
      if v != w && k == p && x.cells[Var(w)] in x.heap.live then Some(x.heap.live[x.cells[Var(w)]]) else None
    case _ => None
  }

  /** The message the operation frees. */
  predicate Frees(x: World, op: Op, p: int)
    requires Enabled(x, op)
  {
    match op
    case CopyAssign(v, w, k) => v != w && k != NULL && x.cells[Var(v)] == p
    case MoveAssign(v, w) => v != w && x.cells[Var(v)] == p
    case Destroy(v) => x.cells[Var(v)] == p
    case Dispose(k) => k == p
    case _ => false
  }

  /** A careful operation makes and frees just the messages it is for; all others live on with their bodies. */
  lemma BodiesAfter(x: World, op: Op, p: int)
    requires Linear(x) && Enabled(x, op) && Careful(x, op) && p != NULL
    ensures var live := Do(x, op).heap.live;
            if Makes(x, op, p).Some? then p in live && live[p] == Makes(x, op, p).value
            else (p in live <==> p in x.heap.live && !Frees(x, op, p)) && (p in live ==> live[p] == x.heap.live[p])
  {
  }

  lemma HoldersAfter(x: World, op: Op, c: Cell, p: int)
    requires Linear(x) && Enabled(x, op) && Careful(x, op) && p != NULL
    ensures Owns(Do(x, op), Held(c), p) <==>
            if Receiver(x, op, p).Some? then Receiver(x, op, p) == Some(Held(c))
            else !Frees(x, op, p) && Owns(x, Held(c), p)
  {
    hide Dup;
  }

  lemma OthersAfter(x: World, op: Op, o: Owner, p: int)
    requires Linear(x) && Enabled(x, op) && Careful(x, op) && p != NULL && !o.Held?
    ensures Owns(Do(x, op), o, p) <==>
            if Receiver(x, op, p).Some? then Receiver(x, op, p) == Some(o) else !Frees(x, op, p) && Owns(x, o, p)
  {
    hide Dup;
  }

  /** It hands on just the message it is for; all others stay with their owners. */
  lemma OwnersAfter(x: World, op: Op, o: Owner, p: int)
    requires Linear(x) && Enabled(x, op) && Careful(x, op) && p != NULL
    ensures Owns(Do(x, op), o, p) <==>
            if Receiver(x, op, p).Some? then Receiver(x, op, p) == Some(o) else !Frees(x, op, p) && Owns(x, o, p)
  {
    hide Linear, Do, Owns, Careful, Frees, Receiver;
    if o.Held? { HoldersAfter(x, op, o.c, p); } else { OthersAfter(x, op, o, p); }
  }

  /** Wrappers and slots begin with their constructor and end with their destructor. */
  lemma CellsAfter(x: World, op: Op, c: Cell)
    requires Enabled(x, op)
    ensures c in Do(x, op).cells <==>
            match op
            case Destroy(v) => c in x.cells && c != Var(v)
            case AioDestroy(a) => c in x.cells && c != Slot(a)
            case AioInit(a) => c in x.cells || c == Slot(a)
            case Default(v) => c in x.cells || c == Var(v)
            case Adopt(v, _) => c in x.cells || c == Var(v)
            case New(v, p, _) => c in x.cells || (p != NULL && c == Var(v))
            case CopyInit(v, _, p) => c in x.cells || (p != NULL && c == Var(v))
            case MoveInit(v, _) => c in x.cells || c == Var(v)
            case Recv(v, _) => c in x.cells || c == Var(v)
            case ReleaseMsg(_, v) => c in x.cells || c == Var(v)
            case _ => c in x.cells
    ensures (op.Default? ==> Do(x, op).cells[Var(op.v)] == NULL)
    ensures (op.AioInit? ==> Do(x, op).cells[Slot(op.a)] == NULL)
  {
    hide Free, Dup;
  }

  /** Whether a consuming send succeeds or throws, its message has exactly one owner: the library or the wrapper. */
  lemma SendHandsOver(x: World, v: int, ok: bool)
    requires Linear(x) && Enabled(x, Send(v, ok)) && x.cells[Var(v)] != NULL
    ensures var x', p := Do(x, Send(v, ok)), x.cells[Var(v)];
            Linear(x') && forall o :: Owns(x', o, p) <==> o == if ok then Library else Held(Var(v))
  {
    var x' := Do(x, Send(v, ok));
    StepLinearIff(x, Send(v, ok));
    ExactlyOneOwner(x', x.cells[Var(v)]);
    assert Owns(x', if ok then Library else Held(Var(v)), x.cells[Var(v)]);
  }

  /** Setting and releasing the slot is a round trip for the wrapper and leaves the slot empty. */
  lemma SlotRoundTrip(x: World, a: int, v: int)
    requires Linear(x) && Enabled(x, SetMsg(a, v)) && Careful(x, SetMsg(a, v))
    ensures var x' := Step(Step(Step(x, SetMsg(a, v)), Destroy(v)), ReleaseMsg(a, v)); x' == x
  {
    var x1 := Do(x, SetMsg(a, v));
    var x2 := Do(x1, Destroy(v));
    assert x2.heap == x.heap;
    assert Do(x2, ReleaseMsg(a, v)).cells == x.cells;
  }

  /** Putting a view of a wrapper's message into a slot and destroying both wrappers of it frees it twice. */
  lemma SharedViewFreesTwice(x: World, a: int, v: int, w: int)
    requires Linear(x) && Var(v) in x.cells && Slot(a) in x.cells && Var(w) !in x.cells
    requires x.cells[Var(v)] != NULL && x.cells[Slot(a)] == NULL
    ensures Step(Step(Step(Step(x, SetView(a, x.cells[Var(v)])), ReleaseMsg(a, w)), Destroy(v)),
                 Destroy(w)).heap.misused
  {
    var p := x.cells[Var(v)];
    var x2 := Step(Step(x, SetView(a, p)), ReleaseMsg(a, w));
    assert x2.cells[Var(v)] == p && x2.cells[Var(w)] == p && x2.heap == x.heap;
  }

  /** A copy assignment whose duplication fails leaves a freed pointer behind, and the destructor frees it again. */
  lemma FailedCopyFreesTwice(x: World, v: int, w: int)
    requires Linear(x) && Var(v) in x.cells && Var(w) in x.cells && v != w
    requires x.cells[Var(v)] != NULL && x.cells[Var(w)] != NULL
    ensures var x' := Step(x, CopyAssign(v, w, NULL));
            && !x'.heap.misused && x'.cells[Var(v)] == x.cells[Var(v)]
            && Step(x', Destroy(v)).heap.misused
  {
  }

  /** A copy that does not throw has the body of its source, and the source and all other messages keep theirs. */
  lemma CopyCopies(x: World, v: int, w: int, p: int)
    requires Linear(x) && Enabled(x, CopyAssign(v, w, p)) && v != w && x.cells[Var(w)] != NULL && p != NULL
    ensures var x', m := Do(x, CopyAssign(v, w, p)), x.cells[Var(v)];
            && x'.cells == x.cells[Var(v) := p]
            && x'.heap.live == (x.heap.live - {m})[p := x.heap.live[x.cells[Var(w)]]]
  {
    assert x.heap.live - {NULL} == x.heap.live;
  }
}
